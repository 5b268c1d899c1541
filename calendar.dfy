/** Dates as the generators use them through `datetime`: a day is its proleptic Gregorian
    ordinal (0001-01-01 is day 1, as `date.toordinal()` numbers it), `timedelta(days=k)`
    is `+ k`, `date.weekday()` is Monday 0 … Sunday 6, and `strftime('%Y-%m-%d')`
    renders a day through its year, month and day of month. */
module Calendar {
  import opened Common

  type Day = d: int | d >= 1 witness 1

  /** `date.weekday()`: 0001-01-01 was a Monday. */
  function Weekday(d: Day): (w: nat)
    ensures w < 7
  {
    (d + 6) % 7
  }

  const Friday: nat := 4

  /** One week later is the same weekday. */
  lemma WeekdayPlusWeek(d: Day)
    ensures Weekday(d + 7) == Weekday(d)
  {
  }

  /** `_get_next_friday`: `days_ahead = 4 - weekday`, plus a week when that is not positive. */
  function NextFriday(d: Day): (r: Day)
    ensures d < r <= d + 7
    ensures Weekday(r) == Friday
    ensures forall k :: d < k < r ==> Weekday(k) != Friday
    ensures Weekday(d) == Friday ==> r == d + 7
  {
    var daysAhead := Friday - Weekday(d);
    d + (if daysAhead <= 0 then daysAhead + 7 else daysAhead)
  }

  // ------------------------------------------------------------------------
  // Year, month and day of month
  // ------------------------------------------------------------------------

  predicate IsLeap(y: int) {
    y % 4 == 0 && (y % 100 != 0 || y % 400 == 0)
  }

  function DaysInYear(y: int): (n: nat)
    ensures n == 365 || n == 366
  {
    if IsLeap(y) then 366 else 365
  }

  function DaysInMonth(y: int, m: int): (n: nat)
    requires 1 <= m <= 12
    ensures 28 <= n <= 31
  {
    if m == 2 then (if IsLeap(y) then 29 else 28)
    else if m == 4 || m == 6 || m == 9 || m == 11 then 30
    else 31
  }

  /** Days of year `y` that fall in the months before `m`. */
  function DaysBeforeMonth(y: int, m: int): (n: nat)
    requires 1 <= m <= 12
  {
    var table := [0, 31, 59, 90, 120, 151, 181, 212, 243, 273, 304, 334];
    table[m - 1] + (if m > 2 && IsLeap(y) then 1 else 0)
  }

  lemma DaysBeforeNextMonth(y: int, m: int)
    requires 1 <= m < 12
    ensures DaysBeforeMonth(y, m + 1) == DaysBeforeMonth(y, m) + DaysInMonth(y, m)
  {
  }

  lemma DecemberEndsYear(y: int)
    ensures DaysBeforeMonth(y, 12) + DaysInMonth(y, 12) == DaysInYear(y)
  {
  }

  /** Days in the years before year `y`. */
  function DaysBeforeYear(y: int): nat
    requires y >= 1
    decreases y
  {
    if y == 1 then 0 else DaysBeforeYear(y - 1) + DaysInYear(y - 1)
  }

  datatype Date = Date(year: int, month: int, day: int)

  predicate ValidDate(t: Date) {
    t.year >= 1 && 1 <= t.month <= 12 && 1 <= t.day <= DaysInMonth(t.year, t.month)
  }

  /** `date.toordinal()`. */
  function ToOrdinal(t: Date): (d: Day)
    requires ValidDate(t)
  {
    DaysBeforeYear(t.year) + DaysBeforeMonth(t.year, t.month) + t.day
  }

  /** The month and day of month of the `rem`-th day of year `y`, counted from month `m`. */
  function MonthOf(y: int, m: int, rem: int): (t: Date)
    requires y >= 1 && 1 <= m <= 12
    requires 1 <= rem <= DaysInYear(y) - DaysBeforeMonth(y, m)
    ensures ValidDate(t) && t.year == y && t.month >= m
    ensures DaysBeforeMonth(y, t.month) + t.day == DaysBeforeMonth(y, m) + rem
    decreases 12 - m
  {
    if m == 12 || rem <= DaysInMonth(y, m) then
      DecemberEndsYear(y);
      Date(y, m, rem)
    else
      DaysBeforeNextMonth(y, m);
      MonthOf(y, m + 1, rem - DaysInMonth(y, m))
  }

  /** The date of the `rem`-th day counted from the start of year `y`. */
  function YearOf(y: int, rem: int): (t: Date)
    requires y >= 1 && rem >= 1
    ensures ValidDate(t) && t.year >= y
    ensures DaysBeforeYear(t.year) + DaysBeforeMonth(t.year, t.month) + t.day == DaysBeforeYear(y) + rem
    decreases rem
  {
    if rem <= DaysInYear(y) then MonthOf(y, 1, rem)
    else YearOf(y + 1, rem - DaysInYear(y))
  }

  /** `date.fromordinal(d)`: reading the date back gives the same ordinal. */
  function FromOrdinal(d: Day): (t: Date)
    ensures ValidDate(t) && ToOrdinal(t) == d
  {
    YearOf(1, d)
  }

  /** The day `rem` days into month `m0` of year `y`, counting on, is the date `t` it lands on. */
  lemma {:induction false} MonthOfAt(y: int, m0: int, t: Date, rem: int)
    requires ValidDate(t) && t.year == y && 1 <= m0 <= t.month
    requires DaysBeforeMonth(y, m0) + rem == DaysBeforeMonth(y, t.month) + t.day
    ensures 1 <= rem <= DaysInYear(y) - DaysBeforeMonth(y, m0)
    ensures MonthOf(y, m0, rem) == t
    decreases t.month - m0
  {
    DaysBeforeMonthFits(y, t.month);
    if m0 < t.month {
      var len := DaysInMonth(y, m0);
      DaysBeforeNextMonth(y, m0);
      DaysBeforeMonthGrows(y, m0 + 1, t.month);
      MonthOfAt(y, m0 + 1, t, rem - len);
    }
  }

  lemma DaysBeforeMonthGrows(y: int, m0: int, m1: int)
    requires 1 <= m0 <= m1 <= 12
    ensures DaysBeforeMonth(y, m1) - DaysBeforeMonth(y, m0) >= 28 * (m1 - m0)
  {
  }

  lemma DaysBeforeMonthFits(y: int, m: int)
    requires 1 <= m <= 12
    ensures DaysBeforeMonth(y, m) + DaysInMonth(y, m) <= DaysInYear(y)
  {
  }

  /** The day `rem` days into year `y0`, counting on, is the date `t` it lands on. */
  lemma {:induction false} YearOfAt(y0: int, t: Date, rem: int)
    requires ValidDate(t) && 1 <= y0 <= t.year && rem >= 1
    requires DaysBeforeYear(y0) + rem == DaysBeforeYear(t.year) + DaysBeforeMonth(t.year, t.month) + t.day
    ensures YearOf(y0, rem) == t
    decreases t.year - y0
  {
    if y0 == t.year {
      DaysBeforeMonthFits(t.year, t.month);
      MonthOfAt(t.year, 1, t, rem);
      assert YearOf(y0, rem) == MonthOf(y0, 1, rem);
    } else {
      var len := DaysInYear(y0);
      DaysBeforeYearGrows(y0 + 1, t.year);
      assert DaysBeforeYear(y0 + 1) == DaysBeforeYear(y0) + len;
      YearOfAt(y0 + 1, t, rem - len);
      assert rem > len;
      assert YearOf(y0, rem) == YearOf(y0 + 1, rem - len);
    }
  }

  lemma {:induction false} DaysBeforeYearGrows(y0: int, y1: int)
    requires 1 <= y0 <= y1
    ensures DaysBeforeYear(y0) <= DaysBeforeYear(y1)
    decreases y1 - y0
  {
    if y0 < y1 {
      DaysBeforeYearGrows(y0, y1 - 1);
    }
  }

  /** Ordinals and valid dates are in one-to-one correspondence. */
  lemma OrdinalRoundTrip(t: Date)
    requires ValidDate(t)
    ensures FromOrdinal(ToOrdinal(t)) == t
  {
    YearOfAt(1, t, ToOrdinal(t));
  }

  /** `strftime('%Y-%m-%d')`. */
  function DateText(d: Day): (s: string)
    ensures |s| >= 10 && s[|s| - 6] == '-' && s[|s| - 3] == '-'
  {
    var t := FromOrdinal(d);
    ZeroPad2Length(t.month);
    ZeroPad2Length(t.day);
    ZeroPad(t.year, 4) + "-" + ZeroPad(t.month, 2) + "-" + ZeroPad(t.day, 2)
  }
}
