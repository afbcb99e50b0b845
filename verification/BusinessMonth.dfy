/** Korean days and months: where a day starts, the days of a range, the last day of a month, and closed months. */
module BusinessMonth {
  import opened Common
  import opened Calendar
  import opened Decimal
  import opened BusinessDate

  /** `Date.UTC` reads a year from 0 to 99 as one of the 1900s. */
  function UtcYear(y: int): int { if 0 <= y <= 99 then 1900 + y else y }

  function Utc(y: int, month0: int, day: int): int { MakeDay(UtcYear(y), month0, day) }

  // ---- The Korean day --------------------------------------------------------------------------------------------

  /** The last time value there is; the first is as far before 1970 (section 21.4.1.1 of ECMA-262). */
  const MAX_TIME: int := DAY_MS * MAX_DAY

  predicate IsTime(t: int) { -MAX_TIME <= t <= MAX_TIME }

  /** What `new Date` and `Date.UTC` make of a number of milliseconds; None is an invalid date. */
  function TimeClip(t: int): Option<int> { if IsTime(t) then Some(t) else None }

  /** The day an instant is in, in Korea. */
  function KoreanDay(t: int): int { (t + KST_OFFSET_MS) / DAY_MS }

  /** It is the day of the instant in UTC until 15 o'clock there, and from then on the next. */
  lemma KoreanDayIs(t: int)
    ensures KoreanDay(t) == t / 86_400_000 + (if t % 86_400_000 >= 54_000_000 then 1 else 0)
    ensures IsTime(t) <==> -8_640_000_000_000_000 <= t <= 8_640_000_000_000_000
  {
    var day, rest := t / 86_400_000, t % 86_400_000;
    assert t == 86_400_000 * day + rest;
  }

  /** `kstBusinessDate`, in milliseconds. The fields of an invalid date give an invalid date. */
  ghost function KstBusinessDate(t: int): Option<int> {
    if TimeClip(t + KST_OFFSET_MS).None? then None
    else
      var x := DateOf(KoreanDay(t));
      TimeClip(DAY_MS * Utc(x.year, x.month - 1, x.day))
  }

  ghost function KstDayStart(t: int): Option<int> {
    var date := KstBusinessDate(t);
    if date.None? then None else TimeClip(date.value - KST_OFFSET_MS)
  }

  lemma MakeDayOf(x: Date)
    requires Valid(x)
    ensures MakeDay(x.year, x.month - 1, x.day) == DayNumber(x)
  {
  }

  /** `Date.UTC` takes the year for one of the 1900s. */
  predicate ReadAs1900s(x: Date) { 0 <= x.year <= 99 }

  /** The Korean time of the instant, and the start of its day, are time values. */
  predicate DayInTime(t: int) {
    t + KST_OFFSET_MS <= MAX_TIME && DAY_MS * KoreanDay(t) - KST_OFFSET_MS >= -MAX_TIME
  }

  lemma DaysAreTimes(t: int)
    requires IsTime(t)
    ensures IsTime(t + KST_OFFSET_MS) ==> -MAX_DAY <= KoreanDay(t) <= MAX_DAY
  {
  }

  /** The years 0 to 99, and the 1900s, are far from both ends. */
  lemma EarlyYearsInTime(t: int, x: Date)
    requires x == DateOf(KoreanDay(t)) && ReadAs1900s(x)
    ensures var u := Utc(x.year, x.month - 1, x.day);
            DayInTime(t) && IsTime(t + KST_OFFSET_MS) && IsTime(DAY_MS * u) && IsTime(DAY_MS * u - KST_OFFSET_MS)
  {
    var k, u := KoreanDay(t), Utc(x.year, x.month - 1, x.day);
    InItsYear(x);
    DayFromYearBounds(x.year);
    DayFromYearBounds(x.year + 1);
    MakeDayIsNear(UtcYear(x.year), x.month, x.day);
    DayFromYearBounds(UtcYear(x.year));
    assert -1_000_000 <= k <= 1_000_000 && -1_000_000 <= u <= 1_000_000;
  }

  /** Where a day of a month can be, counted from the start of its year. */
  lemma MakeDayIsNear(y: int, m: int, d: int)
    requires 1 <= m <= 12 && 1 <= d <= 31
    ensures DayFromYear(y) <= MakeDay(y, m - 1, d) <= DayFromYear(y) + 400
  {
    BeforeBound(y, m);
    assert (m - 1) / 12 == 0 && (m - 1) % 12 + 1 == m;
    assert MakeDay(y, m - 1, d) == DayNumber(Date(y, m, d));
  }

  lemma BeforeBound(y: int, m: int)
    requires 1 <= m <= 12
    ensures 0 <= DaysBefore(y, m) <= 335
  {
  }

  /**
   * The start of the Korean day of an instant is a valid date exactly if the instant's Korean time and that start are time
   * values. It is the start of the day the instant lies in exactly if besides the year is not one of 0 to 99, for which
   * the answer is a day of the 1900s.
   */
  lemma DayStartIff(t: int)
    requires IsTime(t)
    ensures KstDayStart(t).Some? <==> DayInTime(t)
    ensures KstDayStart(t).Some? && KstDayStart(t).value <= t < KstDayStart(t).value + DAY_MS
            <==> DayInTime(t) && !ReadAs1900s(DateOf(KoreanDay(t)))
  {
    var k := KoreanDay(t);
    var x := DateOf(k);
    var u := Utc(x.year, x.month - 1, x.day);
    if ReadAs1900s(x) {
      EarlyYearsInTime(t, x);
      The1900sAreLater(x);
    } else {
      MakeDayOf(x);
      assert u == k;
      DaysAreTimes(t);
    }
    StartsIff(t, k, u);
  }

  /** Every day of the years 0 to 99 is said to start long after it is over. */
  lemma DayStartsTooLate(x: Date)
    requires Valid(x) && ReadAs1900s(x)
    ensures var t := DAY_MS * DayNumber(x) - KST_OFFSET_MS;
            && IsTime(t) && KoreanDay(t) == DayNumber(x) && DateOf(KoreanDay(t)) == x
            && KstDayStart(t).Some? && KstDayStart(t).value >= t + DAY_MS
  {
    var t := DAY_MS * DayNumber(x) - KST_OFFSET_MS;
    assert t + KST_OFFSET_MS == DAY_MS * DayNumber(x);
    DateOfDay(x);
    The1900sAreLater(x);
    EarlyYearsInTime(t, x);
  }

  /** In the last nine hours of time the Korean day starts at no valid date. */
  lemma NoDayStartAtTheEnd(t: int)
    requires MAX_TIME - KST_OFFSET_MS < t <= MAX_TIME
    ensures IsTime(t) && KstDayStart(t).None?
  {
    DayStartIff(t);
  }

  /** Nor in its first fifteen: that day started before the first time value. */
  lemma NoDayStartAtTheStart(t: int)
    requires -MAX_TIME <= t < -MAX_TIME + DAY_MS - KST_OFFSET_MS
    ensures IsTime(t) && KstDayStart(t).None?
  {
    assert KoreanDay(t) == -MAX_DAY;
    DayStartIff(t);
  }

  lemma StartsIff(t: int, k: int, u: int)
    requires k == (t + KST_OFFSET_MS) / DAY_MS
    ensures DAY_MS * u - KST_OFFSET_MS <= t < DAY_MS * u - KST_OFFSET_MS + DAY_MS <==> u == k
  {
  }

  lemma The1900sAreLater(x: Date)
    requires Valid(x) && 0 <= x.year <= 99
    ensures Utc(x.year, x.month - 1, x.day) > DayNumber(x)
  {
    var y := UtcYear(x.year);
    InItsYear(x);
    YearsAscend(x.year + 1, y);
    MakeDayAtLeast(y, x.month, x.day);
  }

  lemma MakeDayAtLeast(y: int, m: int, d: int)
    requires 1 <= m <= 12 && 1 <= d
    ensures MakeDay(y, m - 1, d) >= DayFromYear(y)
  {
  }

  // ---- Ranges of days --------------------------------------------------------------------------------------------

  function InclusiveDayCount(first: int, last: int): int {
    if last < first then 0 else (last - first) / DAY_MS + 1
  }

  /** The days of a range, each a day after the one before: as many as are counted without listing them. */
  method DatesInclusive(first: int, last: int) returns (days: seq<int>)
    ensures |days| == InclusiveDayCount(first, last)
    ensures forall i | 0 <= i < |days| :: days[i] == first + i * DAY_MS
    ensures forall day | day in days :: first <= day <= last
  {
    days := [];
    var cursor := first;
    while cursor <= last
      invariant cursor == first + |days| * DAY_MS
      invariant |days| > 0 ==> cursor - DAY_MS <= last
      invariant forall i | 0 <= i < |days| :: days[i] == first + i * DAY_MS
      invariant forall day | day in days :: first <= day <= last
      decreases last - cursor
    {
      days := days + [cursor];
      cursor := cursor + DAY_MS;
    }
    CountIs(first, last, |days|);
  }

  lemma CountIs(first: int, last: int, n: nat)
    requires first + n * DAY_MS > last && (n > 0 ==> first + n * DAY_MS - DAY_MS <= last)
    ensures n == InclusiveDayCount(first, last)
  {
  }

  // ---- Month ends ------------------------------------------------------------------------------------------------

  predicate IsMonthPattern(s: string) {
    && |s| == 7 && s[4] == '-' && (forall i | 0 <= i < 7 && i != 4 :: IsDigit(s[i]))
    && 1 <= Num2(s[5..]) <= 12
  }

  /** `kstMonthEnd`: the day before the first of the next month. */
  ghost function MonthEnd(s: string): Result<string, Error> {
    if !IsMonthPattern(s) then Rejected(ExpectedMonth)
    else
      var day := DateOf(Utc(Num4(s[..4]), Num2(s[5..]), 0)).day;
      Ok(s[..4] + ['-'] + s[5..] + ['-'] + Pad2(day))
  }

  function LastOf(y: int, m: int): Date { Date(y, m, DaysInMonth(y, m)) }

  /** Day 0 of a month, counted in months from 0, is the last day of the month before it. */
  lemma DayZero(y: int, m: int)
    requires 1 <= m <= 12
    ensures DateOf(MakeDay(y, m, 0)) == LastOf(y, m)
  {
    MonthEndsMeet(y, m);
    var (y', m') := NextMonth(y, m);
    assert y + m / 12 == y' && m % 12 + 1 == m';
    assert DayNumber(Date(y', m', 0)) == DayNumber(LastOf(y, m));
    DateOfDay(LastOf(y, m));
  }

  lemma LeapInThe1900s(y: int)
    requires 0 <= y <= 99
    ensures IsLeap(1900 + y) == IsLeap(y) <==> y != 0
  {
  }

  function MonthText(y: nat, m: nat): string
    requires y < 10_000 && m < 100
  {
    Pad4(y) + (['-'] + Pad2(m))
  }

  lemma MonthTextIs(y: nat, m: nat)
    requires y < 10_000 && 1 <= m <= 12
    ensures var s := MonthText(y, m); IsMonthPattern(s) && Num4(s[..4]) == y && Num2(s[5..]) == m
  {
  }

  lemma MonthPatternText(s: string)
    requires IsMonthPattern(s)
    ensures 0 <= Num4(s[..4]) < 10_000 && s == MonthText(Num4(s[..4]), Num2(s[5..]))
  {
    Pad4OfNum4(s[..4]);
    Pad2OfNum2(s[5..]);
    assert s == s[..4] + (['-'] + s[5..]);
  }

  /** What is printed for a month: its last day, as the calendar has it in the year `Date.UTC` takes. */
  lemma MonthEndIs(y: nat, m: nat)
    requires y < 10_000 && 1 <= m <= 12
    ensures MonthEnd(MonthText(y, m)) == Ok(KeyText(y, m, DaysInMonth(UtcYear(y), m)))
  {
    var s := MonthText(y, m);
    MonthTextIs(y, m);
    DayZero(UtcYear(y), m);
    assert s[..4] == Pad4(y) && s[5..] == Pad2(m);
    var day := DaysInMonth(UtcYear(y), m);
    assert s[..4] + ['-'] + s[5..] + ['-'] + Pad2(day) == Pad4(y) + (['-'] + (Pad2(m) + (['-'] + Pad2(day))));
  }

  /** It is the key of the month's last day for every month but one: February of the year 0. */
  lemma MonthEndIsLastDay(y: nat, m: nat)
    requires y < 10_000 && 1 <= m <= 12
    ensures DateOf(DayNumber(LastOf(y, m))) == LastOf(y, m) && InRange(DayNumber(LastOf(y, m)))
    ensures MonthEnd(MonthText(y, m)) == Ok(Key(DayNumber(LastOf(y, m)))) <==> !(y == 0 && m == 2)
  {
    DateOfDay(LastOf(y, m));
    KeyIs(DayNumber(LastOf(y, m)));
    MonthEndIs(y, m);
    if y <= 99 { LeapInThe1900s(y); }
    SameDayText(y, m, DaysInMonth(UtcYear(y), m), DaysInMonth(y, m));
  }

  lemma SameDayText(y: nat, m: nat, a: nat, b: nat)
    requires y < 10_000 && m < 100 && a < 100 && b < 100
    ensures KeyText(y, m, a) == KeyText(y, m, b) <==> a == b
  {
    TextPattern(y, m, a);
    TextPattern(y, m, b);
  }

  // ---- The closed part of a month --------------------------------------------------------------------------------

  datatype DateRange = DateRange(from: string, to: string)

  /** `closedMonthRangeFromCutoff`. */
  ghost function ClosedMonth(knownThrough: string): Result<Option<DateRange>, Error> {
    var anchor := Shift(knownThrough, 1);
    if anchor.Rejected? then Rejected(anchor.reason)
    else
      var from := (if |anchor.value| >= 7 then anchor.value[..7] else anchor.value) + ['-', '0', '1'];
      Ok(if Less(knownThrough, from) then None else Some(DateRange(from, knownThrough)))
  }

  lemma FirstOfMonthText(y: nat, m: nat, d: nat)
    requires y < 10_000 && m < 100 && d < 100
    ensures KeyText(y, m, d)[..7] + ['-', '0', '1'] == KeyText(y, m, 1)
    ensures KeyText(y, m, d)[..7] == MonthText(y, m)
  {
  }

  /**
   * Nothing of the month is closed exactly on the last day of the month before it; otherwise the closed part is from the
   * first of the cutoff's month to the cutoff. The one exception is the last four-digit date, 9999-12-31.
   */
  lemma ClosedMonthIs(knownThrough: string, d: int)
    requires Parse(knownThrough) == Some(d) && FourDigitYear(d + 1)
    ensures var x := DateOf(d); var first := DayNumber(x.(day := 1));
            && InRange(first)
            && ClosedMonth(knownThrough)
               == Ok(if IsMonthEnd(x) then None else Some(DateRange(Key(first), knownThrough)))
  {
    ParseIff(knownThrough, d);
    var x, next := DateOf(d), DateOf(d + 1);
    NextDate(d, x, next);
    var start := next.(day := 1);
    FirstKey(start);
    FirstKey(x.(day := 1));
    ClosedMonthFrom(knownThrough, d, next);
    KeyOrder(d, DayNumber(start));
    NumberAfter(x);
  }

  /** The range starts at the first of the month of the day after. */
  lemma ClosedMonthFrom(knownThrough: string, d: int, next: Date)
    requires Parse(knownThrough) == Some(d) && FourDigitYear(d + 1) && next == DateOf(d + 1)
    ensures var from := KeyText(next.year, next.month, 1);
            ClosedMonth(knownThrough) == Ok(if Less(knownThrough, from) then None else Some(DateRange(from, knownThrough)))
  {
    KeyIs(d + 1);
    ShiftOf(knownThrough, d, 1);
    FirstOfMonthText(next.year, next.month, next.day);
  }

  lemma FirstKey(x: Date)
    requires Valid(x) && x.day == 1 && 0 <= x.year <= 9999
    ensures DateOf(DayNumber(x)) == x && InRange(DayNumber(x)) && Key(DayNumber(x)) == KeyText(x.year, x.month, 1)
  {
    DateOfDay(x);
    KeyIs(DayNumber(x));
  }

  predicate IsLastDate(x: Date) { x.year == 9999 && x.month == 12 && x.day == 31 }

  /** 9999-12-31 is the only four-digit-year date whose next day is not one. */
  lemma LastDate(d: int, x: Date, next: Date)
    requires x == DateOf(d) && next == DateOf(d + 1)
    ensures 0 <= x.year <= 9999 && !(0 <= next.year <= 9999) <==> IsLastDate(x)
    ensures IsLastDate(x) ==> next.year == 10_000
  {
    NextDate(d, x, next);
    LastFollowed(x, next);
  }

  lemma NextDate(d: int, x: Date, next: Date)
    requires x == DateOf(d) && next == DateOf(d + 1)
    ensures next == Following(x)
  {
    DayAfter(d);
  }

  lemma LastFollowed(x: Date, next: Date)
    requires Valid(x) && next == Following(x)
    ensures 0 <= x.year <= 9999 && !(0 <= next.year <= 9999) <==> IsLastDate(x)
    ensures IsLastDate(x) ==> next.year == 10_000
  {
  }

  lemma KeyBeyond(d: int, y: int)
    requires y == DateOf(d).year && 10_000 <= y && InRange(d)
    ensures y < 1_000_000 && |Key(d)| == 10 && Key(d)[..7] == YearText(y)
  {
    YearInRange(d);
    var x := DateOf(d);
    var text := YearText(y) + ['-'] + Pad2(x.month) + ['-'] + Pad2(x.day);
    assert text[..10][..7] == YearText(y);
  }

  lemma TenThousand(y: int)
    requires y == 10_000
    ensures YearText(y) == ['+', '0', '1', '0', '0', '0', '0']
  {
  }

  lemma NextInRange(d: int)
    requires FourDigitYear(d)
    ensures InRange(d + 1)
  {
    var y := DateOf(d).year;
    InItsYear(DateOf(d));
    DayFromYearBounds(y);
    DayFromYearBounds(y + 1);
  }

  /** On 9999-12-31 the anchor has a five-digit year, whose key is no date, and the range starts at that. */
  lemma ClosedMonthOfLastDate(knownThrough: string, d: int)
    requires Parse(knownThrough) == Some(d) && IsLastDate(DateOf(d))
    ensures ClosedMonth(knownThrough)
            == Ok(Some(DateRange(['+', '0', '1', '0', '0', '0', '0', '-', '0', '1'], knownThrough)))
  {
    var x, next := DateOf(d), DateOf(d + 1);
    LastDate(d, x, next);
    NextInRange(d);
    KeyBeyond(d + 1, next.year);
    TenThousand(next.year);
    StartsWithDigit(knownThrough);
    ClosedMonthAfter(knownThrough, d, Key(d + 1), YearText(next.year));
    FirstAfterLast(YearText(next.year));
  }

  lemma FirstAfterLast(year: string)
    requires year == ['+', '0', '1', '0', '0', '0', '0']
    ensures year + ['-', '0', '1'] == ['+', '0', '1', '0', '0', '0', '0', '-', '0', '1']
  {
  }

  lemma ClosedMonthAfter(knownThrough: string, d: int, anchor: string, month: string)
    requires Parse(knownThrough) == Some(d) && InRange(d + 1) && Key(d + 1) == anchor
    requires |anchor| == 10 && anchor[..7] == month && month != [] && month[0] == '+'
    requires knownThrough != [] && IsDigit(knownThrough[0])
    ensures ClosedMonth(knownThrough) == Ok(Some(DateRange(month + ['-', '0', '1'], knownThrough)))
  {
    ShiftOf(knownThrough, d, 1);
    LessPlus(knownThrough, month + ['-', '0', '1']);
  }

  lemma StartsWithDigit(s: string)
    requires Parse(s).Some?
    ensures s != [] && IsDigit(s[0])
  {
  }

  /** Digits come after the plus sign. */
  lemma LessPlus(s: string, from: string)
    requires s != [] && IsDigit(s[0]) && from != [] && from[0] == '+'
    ensures !Less(s, from)
  {
  }
}
