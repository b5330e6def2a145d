/**
  The proleptic Gregorian calendar of Python's `datetime.date`.

  A day is represented by its ordinal, as `date.toordinal()` gives it:
  0001-01-01 is day 1 and 9999-12-31 (the last date Python accepts) is day
  3652059. Subtracting two dates or a `timedelta` of whole days is then plain
  integer arithmetic on ordinals.
*/
module Calendar {

  const MinYear := 1
  const MaxYear := 9999
  /** The ordinal of 9999-12-31, Python's `date.max`. */
  const MaxOrdinal := 3652059

  /** The ordinal of a day Python's `date` can represent. */
  predicate IsDay(n: int) {
    1 <= n <= MaxOrdinal
  }

  datatype Ymd = Ymd(year: int, month: int, day: int)

  predicate IsLeap(y: int) {
    y % 4 == 0 && (y % 100 != 0 || y % 400 == 0)
  }

  function DaysInYear(y: int): int {
    if IsLeap(y) then 366 else 365
  }

  function DaysInMonth(y: int, m: int): int
    requires 1 <= m <= 12
  {
    if m == 2 then (if IsLeap(y) then 29 else 28)
    else if m == 4 || m == 6 || m == 9 || m == 11 then 30
    else 31
  }

  /** A (year, month, day) triple that names a date of Python's calendar. */
  predicate IsValid(d: Ymd) {
    && MinYear <= d.year <= MaxYear
    && 1 <= d.month <= 12
    && 1 <= d.day <= DaysInMonth(d.year, d.month)
  }

  /** Number of days in the years before January 1st of year `y`. */
  function DaysBeforeYear(y: int): int
    requires y >= 1
  {
    var p := y - 1;
    p * 365 + p / 4 - p / 100 + p / 400
  }

  /** Number of days in year `y` before the first day of month `m`. */
  function DaysBeforeMonth(y: int, m: int): int
    requires 1 <= m <= 12
  {
    var common :=
      match m
      case 1 => 0
      case 2 => 31
      case 3 => 59
      case 4 => 90
      case 5 => 120
      case 6 => 151
      case 7 => 181
      case 8 => 212
      case 9 => 243
      case 10 => 273
      case 11 => 304
      case _ => 334;
    common + (if m > 2 && IsLeap(y) then 1 else 0)
  }

  /** Each month ends where the next one begins, and December ends the year. */
  lemma MonthBounds(y: int, m: int)
    requires 1 <= m <= 12
    ensures 0 <= DaysBeforeMonth(y, m)
    ensures DaysBeforeMonth(y, m) + DaysInMonth(y, m) <= DaysInYear(y)
    ensures m < 12 ==> DaysBeforeMonth(y, m + 1) == DaysBeforeMonth(y, m) + DaysInMonth(y, m)
    ensures m == 12 ==> DaysBeforeMonth(y, m) + DaysInMonth(y, m) == DaysInYear(y)
  {
  }

  /** Consecutive years: the closed form above adds exactly one year's length. */
  lemma DaysBeforeYearStep(y: int)
    requires y >= 1
    ensures DaysBeforeYear(y + 1) == DaysBeforeYear(y) + DaysInYear(y)
  {
    QuotientStep4(y);
    QuotientStep100(y);
    QuotientStep400(y);
  }

  /** `y // d` goes up by one exactly when `d` divides `y`. */
  lemma QuotientStep4(y: int)
    ensures y / 4 - (y - 1) / 4 == (if y % 4 == 0 then 1 else 0)
  {
  }

  lemma QuotientStep100(y: int)
    ensures y / 100 - (y - 1) / 100 == (if y % 100 == 0 then 1 else 0)
  {
  }

  lemma QuotientStep400(y: int)
    ensures y / 400 - (y - 1) / 400 == (if y % 400 == 0 then 1 else 0)
  {
  }

  /** Later years start strictly later: at least 365 days per year in between. */
  lemma {:induction false} DaysBeforeYearGrows(a: int, b: int)
    requires 1 <= a <= b
    ensures DaysBeforeYear(b) - DaysBeforeYear(a) >= 365 * (b - a)
    decreases b - a
  {
    if a < b {
      DaysBeforeYearGrows(a, b - 1);
      DaysBeforeYearStep(b - 1);
    }
  }

  /** The year that contains day `n`: search upwards from a year that starts before `n`. */
  function FindYear(n: int, y: int): (r: int)
    requires 1 <= y && DaysBeforeYear(y) < n
    ensures y <= r && DaysBeforeYear(r) < n <= DaysBeforeYear(r) + DaysInYear(r)
    decreases n - DaysBeforeYear(y)
  {
    DaysBeforeYearStep(y);
    if n <= DaysBeforeYear(y) + DaysInYear(y) then y else FindYear(n, y + 1)
  }

  /** The month of year `y` that contains its `k`-th day. */
  function MonthOfDay(y: int, k: int): (m: int)
    requires 1 <= k <= DaysInYear(y)
    ensures 1 <= m <= 12
    ensures DaysBeforeMonth(y, m) < k <= DaysBeforeMonth(y, m) + DaysInMonth(y, m)
  {
    if k > DaysBeforeMonth(y, 12) then 12
    else if k > DaysBeforeMonth(y, 11) then 11
    else if k > DaysBeforeMonth(y, 10) then 10
    else if k > DaysBeforeMonth(y, 9) then 9
    else if k > DaysBeforeMonth(y, 8) then 8
    else if k > DaysBeforeMonth(y, 7) then 7
    else if k > DaysBeforeMonth(y, 6) then 6
    else if k > DaysBeforeMonth(y, 5) then 5
    else if k > DaysBeforeMonth(y, 4) then 4
    else if k > DaysBeforeMonth(y, 3) then 3
    else if k > DaysBeforeMonth(y, 2) then 2
    else 1
  }

  /** `date(y, m, d).toordinal()`. */
  function ToOrdinal(d: Ymd): (n: int)
    requires IsValid(d)
    ensures IsDay(n)
    ensures DaysBeforeYear(d.year) < n <= DaysBeforeYear(d.year) + DaysInYear(d.year)
  {
    MonthBounds(d.year, d.month);
    DaysBeforeYearGrows(d.year, MaxYear);
    DaysBeforeYearStep(MaxYear);
    DaysBeforeYear(d.year) + DaysBeforeMonth(d.year, d.month) + d.day
  }

  /** `date.fromordinal(n)`: the calendar date whose ordinal is `n`. */
  function FromOrdinal(n: int): (d: Ymd)
    requires IsDay(n)
    ensures IsValid(d) && ToOrdinal(d) == n
  {
    var y := FindYear(n, 1);
    YearIsBelowMax(n, y);
    var k := n - DaysBeforeYear(y);
    var m := MonthOfDay(y, k);
    Ymd(y, m, k - DaysBeforeMonth(y, m))
  }

  lemma YearIsBelowMax(n: int, y: int)
    requires IsDay(n) && 1 <= y && DaysBeforeYear(y) < n
    ensures y <= MaxYear
  {
    if y > MaxYear {
      DaysBeforeYearGrows(MaxYear + 1, y);
    }
  }

  /** Only one year can contain a given day. */
  lemma {:induction false} YearIsUnique(n: int, y1: int, y2: int)
    requires 1 <= y1 && DaysBeforeYear(y1) < n <= DaysBeforeYear(y1) + DaysInYear(y1)
    requires 1 <= y2 && DaysBeforeYear(y2) < n <= DaysBeforeYear(y2) + DaysInYear(y2)
    ensures y1 == y2
  {
    if y1 < y2 {
      DaysBeforeYearStep(y1);
      DaysBeforeYearGrows(y1 + 1, y2);
    } else if y2 < y1 {
      DaysBeforeYearStep(y2);
      DaysBeforeYearGrows(y2 + 1, y1);
    }
  }

  /** Distinct dates have distinct ordinals. */
  lemma ToOrdinalInjective(a: Ymd, b: Ymd)
    requires IsValid(a) && IsValid(b) && ToOrdinal(a) == ToOrdinal(b)
    ensures a == b
  {
    var n := ToOrdinal(a);
    YearIsUnique(n, a.year, b.year);
    var y := a.year;
    var k := n - DaysBeforeYear(y);
    MonthBounds(y, a.month);
    MonthBounds(y, b.month);
    MonthIsUnique(y, k, a.month, b.month);
  }

  lemma MonthIsUnique(y: int, k: int, m1: int, m2: int)
    requires 1 <= m1 <= 12 && DaysBeforeMonth(y, m1) < k <= DaysBeforeMonth(y, m1) + DaysInMonth(y, m1)
    requires 1 <= m2 <= 12 && DaysBeforeMonth(y, m2) < k <= DaysBeforeMonth(y, m2) + DaysInMonth(y, m2)
    ensures m1 == m2
  {
  }

  /** `date.fromordinal(d.toordinal()) == d` for every date. */
  lemma FromToOrdinal(d: Ymd)
    requires IsValid(d)
    ensures FromOrdinal(ToOrdinal(d)) == d
  {
    ToOrdinalInjective(FromOrdinal(ToOrdinal(d)), d);
  }

  /** `date.fromordinal` is one-to-one on the days Python represents. */
  lemma FromOrdinalInjective(a: int, b: int)
    requires IsDay(a) && IsDay(b) && FromOrdinal(a) == FromOrdinal(b)
    ensures a == b
  {
  }
}
