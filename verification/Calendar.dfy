/**
 * The proleptic Gregorian calendar of section 21.4.1 of ECMA-262: days counted from 1970-01-01, and the year, month and
 * day of each.
 */
module Calendar {

  predicate IsLeap(y: int) { y % 4 == 0 && (y % 100 != 0 || y % 400 == 0) }

  function DaysInYear(y: int): int { if IsLeap(y) then 366 else 365 }

  /** DayFromYear: the number of the first day of a year, as the years before it add up. */
  function DayFromYear(y: int): int
    decreases if y < 1970 then 1970 - y else y - 1970
  {
    if y == 1970 then 0
    else if 1970 < y then DayFromYear(y - 1) + DaysInYear(y - 1)
    else DayFromYear(y + 1) - DaysInYear(y)
  }

  lemma YearLength(y: int)
    ensures DayFromYear(y + 1) == DayFromYear(y) + DaysInYear(y)
  {
  }

  /** The formula of section 21.4.1.3. */
  function DayFromYearFormula(y: int): int {
    365 * (y - 1970) + (y - 1969) / 4 - (y - 1901) / 100 + (y - 1601) / 400
  }

  /** A quotient goes up by one exactly at the multiples of the divisor. */
  lemma Quarters(n: int)
    ensures n / 4 == (n - 1) / 4 + (if n % 4 == 0 then 1 else 0)
  {
  }

  lemma Centuries(n: int)
    ensures n / 100 == (n - 1) / 100 + (if n % 100 == 0 then 1 else 0)
  {
  }

  lemma FourCenturies(n: int)
    ensures n / 400 == (n - 1) / 400 + (if n % 400 == 0 then 1 else 0)
  {
  }

  lemma SameRemainders(y: int)
    ensures (y - 1968) % 4 == y % 4
    ensures (y - 1900) % 100 == y % 100
    ensures (y - 1600) % 400 == y % 400
  {
    Shifted(y, 4, 492);
    Shifted(y, 100, 19);
    Shifted(y, 400, 4);
  }

  lemma Shifted(n: int, d: int, k: int)
    requires d == 4 || d == 100 || d == 400
    ensures (n - k * d) % d == n % d
  {
  }

  lemma MultiplesNest(y: int)
    ensures y % 400 == 0 ==> y % 100 == 0
    ensures y % 100 == 0 ==> y % 4 == 0
  {
  }

  lemma FormulaStep(y: int)
    ensures DayFromYearFormula(y + 1) == DayFromYearFormula(y) + DaysInYear(y)
  {
    Quarters(y - 1968);
    Centuries(y - 1900);
    FourCenturies(y - 1600);
    SameRemainders(y);
    MultiplesNest(y);
  }

  /** The formula adds up the years. */
  lemma {:induction false} FormulaIsSum(y: int)
    ensures DayFromYear(y) == DayFromYearFormula(y)
    decreases if y < 1970 then 1970 - y else y - 1970
  {
    if 1970 < y {
      FormulaIsSum(y - 1);
      FormulaStep(y - 1);
    } else if y < 1970 {
      FormulaIsSum(y + 1);
      FormulaStep(y);
    }
  }

  lemma {:induction false} DayFromYearBounds(y: int)
    ensures 1970 <= y ==> 365 * (y - 1970) <= DayFromYear(y) <= 366 * (y - 1970)
    ensures y <= 1970 ==> 366 * (y - 1970) <= DayFromYear(y) <= 365 * (y - 1970)
    decreases if y < 1970 then 1970 - y else y - 1970
  {
    if 1970 < y { DayFromYearBounds(y - 1); } else if y < 1970 { DayFromYearBounds(y + 1); }
  }

  lemma {:induction false} YearsAscend(a: int, b: int)
    requires a < b
    ensures DayFromYear(a) + 365 <= DayFromYear(b)
    decreases b - a
  {
    YearLength(b - 1);
    if a < b - 1 { YearsAscend(a, b - 1); }
  }

  lemma {:induction false} YearAbove(d: int, y: int) returns (r: int)
    requires DayFromYear(y) <= d
    ensures DayFromYear(r) <= d < DayFromYear(r + 1)
    decreases d - DayFromYear(y)
  {
    YearLength(y);
    if d < DayFromYear(y + 1) { r := y; } else { r := YearAbove(d, y + 1); }
  }

  lemma {:induction false} YearBelow(d: int, y: int) returns (r: int)
    requires d < DayFromYear(y)
    ensures DayFromYear(r) <= d < DayFromYear(r + 1)
    decreases DayFromYear(y) - d
  {
    YearLength(y - 1);
    if DayFromYear(y - 1) <= d { r := y - 1; } else { r := YearBelow(d, y - 1); }
  }

  /** YearFromTime: the year a day is in. */
  ghost function YearOf(d: int): (r: int)
    ensures DayFromYear(r) <= d < DayFromYear(r + 1)
  {
    SomeYear(d);
    var y :| DayFromYear(y) <= d < DayFromYear(y + 1); y
  }

  lemma SomeYear(d: int)
    ensures exists y :: DayFromYear(y) <= d < DayFromYear(y + 1)
  {
    var y;
    if 0 <= d { y := YearAbove(d, 1970); } else { y := YearBelow(d, 1970); }
  }

  // ---- Months ----------------------------------------------------------------------------------------------------

  function DaysInMonth(y: int, m: int): int {
    if m == 2 then (if IsLeap(y) then 29 else 28)
    else if m == 4 || m == 6 || m == 9 || m == 11 then 30 else 31
  }

  /** The days of the year before a month, 1 to 13. */
  function DaysBefore(y: int, m: int): int
    requires 1 <= m <= 13
  {
    if m == 1 then 0
    else if m == 2 then 31
    else
      var common := [59, 90, 120, 151, 181, 212, 243, 273, 304, 334, 365][m - 3];
      if IsLeap(y) then common + 1 else common
  }

  /** The months follow one another, each with its length, and make up the year. */
  lemma MonthLength(y: int, m: int)
    requires 1 <= m <= 12
    ensures DaysBefore(y, m + 1) == DaysBefore(y, m) + DaysInMonth(y, m)
    ensures DaysBefore(y, 13) == DaysInYear(y)
  {
  }

  /**
   * The months but February have 31 and 30 days by turns, starting afresh in August; of the years that end a century
   * every fourth is a leap year, and of the others every fourth.
   */
  lemma MonthRule(y: int, m: int)
    requires 1 <= m <= 12
    ensures DaysInMonth(y, m)
            == if m != 2 then 30 + (m + m / 8) % 2
               else if y % 100 == 0 then (if (y / 100) % 4 == 0 then 29 else 28)
               else if y % 4 == 0 then 29 else 28
  {
    if m == 2 { LeapYears(y); }
  }

  lemma EndsCentury(q: int, r: int)
    requires 0 <= r < 4
    ensures (400 * q + 100 * r) % 400 == 100 * r && (400 * q + 100 * r) % 4 == 0
  {
    var n, k := 400 * q + 100 * r, 100 * q + 25 * r;
    Shifted(n, 400, q);
    assert n - q * 400 == 100 * r;
    Shifted(n, 4, k);
    assert n - k * 4 == 0;
  }

  lemma LeapYears(y: int)
    ensures IsLeap(y) <==> if y % 100 == 0 then (y / 100) % 4 == 0 else y % 4 == 0
  {
    if y % 100 == 0 {
      var q, r := y / 100 / 4, (y / 100) % 4;
      assert y == 400 * q + 100 * r;
      EndsCentury(q, r);
    }
  }

  lemma {:induction false} MonthsAscend(y: int, a: int, b: int)
    requires 1 <= a < b <= 13
    ensures DaysBefore(y, a) + DaysInMonth(y, a) <= DaysBefore(y, b)
    decreases b
  {
  }

  datatype Date = Date(year: int, month: int, day: int)

  predicate Valid(x: Date) { 1 <= x.month <= 12 && 1 <= x.day <= DaysInMonth(x.year, x.month) }

  function DayNumber(x: Date): int
    requires 1 <= x.month <= 12
  {
    DayFromYear(x.year) + DaysBefore(x.year, x.month) + x.day - 1
  }

  /** The month a day of the year is in. */
  lemma {:induction false} MonthExists(y: int, n: int, m: int) returns (r: int)
    requires 1 <= m <= 12 && 0 <= n < DaysBefore(y, m + 1)
    ensures 1 <= r <= m && DaysBefore(y, r) <= n < DaysBefore(y, r + 1)
    decreases m
  {
    if DaysBefore(y, m) <= n { r := m; } else { r := MonthExists(y, n, m - 1); }
  }

  lemma SomeDate(d: int)
    ensures exists x: Date :: Valid(x) && DayNumber(x) == d
  {
    var y := YearOf(d);
    YearLength(y);
    MonthLength(y, 12);
    var n := d - DayFromYear(y);
    var m := MonthExists(y, n, 12);
    MonthLength(y, m);
    var x := Date(y, m, n - DaysBefore(y, m) + 1);
    assert Valid(x) && DayNumber(x) == d;
  }

  /** The date of a day. */
  ghost function DateOf(d: int): (x: Date)
    ensures Valid(x) && DayNumber(x) == d
  {
    SomeDate(d);
    var x: Date :| Valid(x) && DayNumber(x) == d; x
  }

  lemma InItsYear(x: Date)
    requires Valid(x)
    ensures DayFromYear(x.year) <= DayNumber(x) < DayFromYear(x.year + 1)
  {
  }

  predicate Earlier(a: Date, b: Date) {
    || a.year < b.year
    || (a.year == b.year && (a.month < b.month || (a.month == b.month && a.day < b.day)))
  }

  /** Days are counted in the order of their dates. */
  lemma OrderKept(a: Date, b: Date)
    requires Valid(a) && Valid(b)
    ensures Earlier(a, b) <==> DayNumber(a) < DayNumber(b)
  {
    if Earlier(a, b) { EarlierIsLess(a, b); }
    if Earlier(b, a) { EarlierIsLess(b, a); }
  }

  lemma EarlierIsLess(a: Date, b: Date)
    requires Valid(a) && Valid(b) && Earlier(a, b)
    ensures DayNumber(a) < DayNumber(b)
  {
    InItsYear(a);
    InItsYear(b);
    if a.year < b.year {
      if a.year + 1 < b.year { YearsAscend(a.year + 1, b.year); }
      assert DayFromYear(a.year + 1) <= DayFromYear(b.year);
    } else if a.month < b.month {
      MonthsAscend(a.year, a.month, b.month);
    }
  }

  /** A date and the number of its day determine each other. */
  lemma DateOfDay(x: Date)
    requires Valid(x)
    ensures DateOf(DayNumber(x)) == x
  {
    var back := DateOf(DayNumber(x));
    OrderKept(x, back);
    OrderKept(back, x);
  }

  /** MakeDay: months beyond a year carry over into the years. */
  function MakeDay(y: int, month0: int, day: int): int {
    DayNumber(Date(y + month0 / 12, month0 % 12 + 1, day))
  }

  predicate IsMonthEnd(x: Date) { x.day == DaysInMonth(x.year, x.month) }

  function NextMonth(y: int, m: int): (int, int) { if m == 12 then (y + 1, 1) else (y, m + 1) }

  /** The day after a month's last one is the first of the next month; after any other day it is the next in the month. */
  lemma DayAfter(d: int)
    ensures DateOf(d + 1) == Following(DateOf(d))
  {
    var x := DateOf(d);
    NumberAfter(x);
    DateOfNumber(Following(x), d + 1);
  }

  lemma DateOfNumber(x: Date, d: int)
    requires Valid(x) && DayNumber(x) == d
    ensures DateOf(d) == x
  {
    DateOfDay(x);
  }

  lemma NumberAfter(x: Date)
    requires Valid(x)
    ensures Valid(Following(x)) && DayNumber(Following(x)) == DayNumber(x) + 1
  {
  }

  function Following(x: Date): Date {
    if IsMonthEnd(x) then Date(NextMonth(x.year, x.month).0, NextMonth(x.year, x.month).1, 1) else x.(day := x.day + 1)
  }

  /** A month is as long as the distance to the next one's first day. */
  lemma MonthEndsMeet(y: int, m: int)
    requires 1 <= m <= 12
    ensures var (y', m') := NextMonth(y, m);
            DayNumber(Date(y, m, 1)) + DaysInMonth(y, m) == DayNumber(Date(y', m', 1))
  {
  }
}
