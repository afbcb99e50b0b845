/** The newest calendar months up to a closed month end, and when they tile the time before it. */
module MonthRange {
  import opened Common
  import opened Calendar
  import opened Decimal
  import opened BusinessDate
  import opened BusinessMonth

  /** A year as JavaScript prints a number: without padding. */
  function PlainYear(y: int): string { if y < 0 then ['-'] + Digits(-y) else Digits(y) }

  /** Read back, it is the year. */
  lemma PlainYearIs(y: int)
    ensures var text := PlainYear(y);
            if y < 0 then text[0] == '-' && Value(text[1..]) == -y
            else Value(text) == y && forall i | 0 <= i < |text| :: IsDigit(text[i])
  {
    DigitsAreDigits(if y < 0 then -y else y);
    if y < 0 { assert PlainYear(y)[1..] == Digits(-y); }
  }

  function PlainMonth(x: Date): string
    requires 1 <= x.month <= 12
  {
    PlainYear(x.year) + (['-'] + Pad2(x.month))
  }

  predicate IsCutoff(s: string) {
    |s| == 10 && IsMonthPattern(s[..7]) && s[7] == '-' && IsDigit(s[8]) && IsDigit(s[9])
  }

  function YearPart(cutoff: string): int
    requires IsCutoff(cutoff)
  {
    Num4(cutoff[..7][..4])
  }

  function MonthPart(cutoff: string): int
    requires IsCutoff(cutoff)
  {
    Num2(cutoff[..7][5..])
  }

  /** The first of the month `back` months before that of a cutoff, as `Date.UTC` has it. */
  ghost function MonthBack(y: int, m: int, back: int): Date { DateOf(Utc(y, m - 1 - back, 1)) }

  /** `kstMonthRange`. */
  ghost function KstMonthRange(cutoff: string, count: int): Result<seq<string>, Error> {
    if !IsCutoff(cutoff) || MonthEnd(cutoff[..7]) != Ok(cutoff) then Rejected(ExpectedCutoff)
    else
      var n := Max(1, count);
      var (y, m) := (YearPart(cutoff), MonthPart(cutoff));
      Ok(seq(n, i requires 0 <= i < n => PlainMonth(MonthBack(y, m, n - 1 - i))))
  }

  /** Each month's last day is the day before the next month's first, and the last month ends at the cutoff. */
  ghost predicate Tiles(cutoff: string, months: seq<string>) {
    && months != [] && MonthEnd(months[|months| - 1]) == Ok(cutoff)
    && (forall i | 0 <= i < |months| :: MonthEnd(months[i]).Ok?)
    && (forall i | 0 <= i < |months| - 1 ::
          Shift(MonthEnd(months[i]).value, 1) == Ok(months[i + 1] + ['-', '0', '1']))
  }

  /** Months counted through: the month `back` before is the one with the number that much smaller. */
  lemma MonthBackIs(y: int, m: int, back: int, k: int)
    requires k == 12 * UtcYear(y) + m - 1 - back
    ensures MonthBack(y, m, back) == Date(k / 12, k % 12 + 1, 1)
  {
    var month0 := m - 1 - back;
    assert UtcYear(y) + month0 / 12 == k / 12 && month0 % 12 == k % 12;
    DateOfNumber(Date(k / 12, k % 12 + 1, 1), Utc(y, month0, 1));
  }

  lemma DigitsStep(q: nat, r: nat)
    requires 1 <= q && r < 10
    ensures Digits(10 * q + r) == Digits(q) + [DigitChar(r)]
  {
  }

  lemma DigitsOfPair(q: nat, n: nat)
    requires 1 <= q && n < 100
    ensures Digits(100 * q + n) == Digits(q) + Pad2(n)
  {
  }

  lemma FourDigits(n: nat)
    requires 1000 <= n <= 9999
    ensures Digits(n) == Pad4(n)
  {
    DigitsOfPair(n / 100, n % 100);
    DigitsStep(n / 1000, n / 100 % 10);
    assert n / 100 == 10 * (n / 1000) + n / 100 % 10;
    assert Digits(n / 1000) == [DigitChar(n / 1000)];
    assert Pad2(n / 100) == [DigitChar(n / 1000), DigitChar(n / 100 % 10)];
  }

  lemma FewDigits(n: nat)
    requires n <= 999
    ensures |Digits(n)| <= 3
  {
    if n >= 10 { assert |Digits(n / 10)| <= 2; }
  }

  /** A month prints as `YYYY-MM` from the year 1000 on. */
  lemma PlainMonthIs(x: Date)
    requires 1 <= x.month <= 12 && 1000 <= x.year <= 9999
    ensures PlainMonth(x) == MonthText(x.year, x.month)
  {
    FourDigits(x.year);
  }

  /** And as something else before that. */
  lemma EarlyMonthIsNone(x: Date)
    requires 1 <= x.month <= 12 && x.year < 1000
    ensures MonthEnd(PlainMonth(x)).Rejected?
  {
    if x.year >= 0 {
      FewDigits(x.year);
      assert |PlainMonth(x)| < 7;
    } else {
      assert PlainMonth(x)[0] == '-';
    }
  }

  /** Two months that follow each other from the year 1000 on: the day after the one's end is the other's first. */
  lemma NeighboursMeet(y: nat, m: nat)
    requires 1000 <= y && 1 <= m <= 12 && NextMonth(y, m).0 <= 9999
    ensures var (y', m') := NextMonth(y, m);
            && MonthEnd(MonthText(y, m)).Ok?
            && Shift(MonthEnd(MonthText(y, m)).value, 1) == Ok(MonthText(y', m') + ['-', '0', '1'])
  {
    var last := LastOf(y, m);
    var d := DayNumber(last);
    var (y', m') := NextMonth(y, m);
    MonthEndIsLastDay(y, m);
    ParseOfKey(d);
    DayAfter(d);
    KeyIs(d + 1);
    ShiftOf(Key(d), d, 1);
    FirstOfMonthText(y', m', 1);
  }

  lemma MonthNumbers(k: int)
    ensures NextMonth(k / 12, k % 12 + 1) == ((k + 1) / 12, (k + 1) % 12 + 1)
  {
  }

  /** The cutoff's own month. */
  lemma CutoffParts(cutoff: string)
    requires IsCutoff(cutoff)
    ensures 0 <= YearPart(cutoff) <= 9999 && 1 <= MonthPart(cutoff) <= 12
    ensures cutoff[..7] == MonthText(YearPart(cutoff), MonthPart(cutoff))
  {
    MonthPatternText(cutoff[..7]);
  }

  /** The number of the oldest month asked for, counting months from the year 0. */
  function FirstMonth(cutoff: string, count: int): int
    requires IsCutoff(cutoff)
  {
    12 * YearPart(cutoff) + MonthPart(cutoff) - 1 - (Max(1, count) - 1)
  }

  lemma MonthInRange(cutoff: string, count: int, i: nat)
    requires KstMonthRange(cutoff, count).Ok? && i < Max(1, count) && FirstMonth(cutoff, count) >= 12_000
    ensures var k := FirstMonth(cutoff, count) + i;
            && 1000 <= k / 12 <= 9999
            && KstMonthRange(cutoff, count).value[i] == MonthText(k / 12, k % 12 + 1)
  {
    var k := FirstMonth(cutoff, count) + i;
    var (y, m) := (YearPart(cutoff), MonthPart(cutoff));
    CutoffParts(cutoff);
    MonthBackIs(y, m, Max(1, count) - 1 - i, k);
    PlainMonthIs(Date(k / 12, k % 12 + 1, 1));
  }

  lemma MonthMeetsNext(cutoff: string, count: int, i: nat)
    requires KstMonthRange(cutoff, count).Ok? && i + 1 < Max(1, count) && FirstMonth(cutoff, count) >= 12_000
    ensures var months := KstMonthRange(cutoff, count).value;
            MonthEnd(months[i]).Ok? && Shift(MonthEnd(months[i]).value, 1) == Ok(months[i + 1] + ['-', '0', '1'])
  {
    var k := FirstMonth(cutoff, count) + i;
    MonthInRange(cutoff, count, i);
    MonthInRange(cutoff, count, i + 1);
    NextMeets(k, KstMonthRange(cutoff, count).value[i], KstMonthRange(cutoff, count).value[i + 1]);
  }

  lemma NextMeets(k: int, a: string, b: string)
    requires 1000 <= k / 12 && (k + 1) / 12 <= 9999
    requires a == MonthText(k / 12, k % 12 + 1) && b == MonthText((k + 1) / 12, (k + 1) % 12 + 1)
    ensures MonthEnd(a).Ok? && Shift(MonthEnd(a).value, 1) == Ok(b + ['-', '0', '1'])
  {
    MonthNumbers(k);
    NeighboursMeet(k / 12, k % 12 + 1);
  }

  lemma LastMonthEnds(cutoff: string, count: int)
    requires KstMonthRange(cutoff, count).Ok? && FirstMonth(cutoff, count) >= 12_000
    ensures var months := KstMonthRange(cutoff, count).value; MonthEnd(months[|months| - 1]) == Ok(cutoff)
  {
    var (y, m) := (YearPart(cutoff), MonthPart(cutoff));
    CutoffParts(cutoff);
    MonthInRange(cutoff, count, Max(1, count) - 1);
    assert (12 * y + m - 1) / 12 == y && (12 * y + m - 1) % 12 + 1 == m;
  }

  lemma TilesFromTheYear1000(cutoff: string, count: int)
    requires KstMonthRange(cutoff, count).Ok? && FirstMonth(cutoff, count) >= 12_000
    ensures Tiles(cutoff, KstMonthRange(cutoff, count).value)
  {
    var months := KstMonthRange(cutoff, count).value;
    LastMonthEnds(cutoff, count);
    forall i | 0 <= i < |months| - 1
      ensures MonthEnd(months[i]).Ok? && Shift(MonthEnd(months[i]).value, 1) == Ok(months[i + 1] + ['-', '0', '1'])
    {
      MonthMeetsNext(cutoff, count, i);
    }
  }

  lemma NoTilesBefore(cutoff: string, count: int)
    requires KstMonthRange(cutoff, count).Ok? && FirstMonth(cutoff, count) < 12_000
    ensures !Tiles(cutoff, KstMonthRange(cutoff, count).value)
  {
    var months, n := KstMonthRange(cutoff, count).value, Max(1, count);
    var (y, m) := (YearPart(cutoff), MonthPart(cutoff));
    CutoffParts(cutoff);
    if y >= 100 {
      var k := FirstMonth(cutoff, count);
      MonthBackIs(y, m, n - 1, k);
      assert months[0] == PlainMonth(Date(k / 12, k % 12 + 1, 1));
      EarlyMonthIsNone(Date(k / 12, k % 12 + 1, 1));
    } else {
      LastOfThe1900s(cutoff, y, m);
      assert months[n - 1] == PlainMonth(MonthBack(y, m, 0));
    }
  }

  /** In the years 0 to 99 even the cutoff's own month comes out as one of the 1900s. */
  lemma LastOfThe1900s(cutoff: string, y: nat, m: nat)
    requires IsCutoff(cutoff) && y == YearPart(cutoff) <= 99 && m == MonthPart(cutoff)
    ensures MonthEnd(PlainMonth(MonthBack(y, m, 0))) != Ok(cutoff)
  {
    var year := 1900 + y;
    var k := 12 * year + m - 1;
    MonthBackIs(y, m, 0, k);
    assert k / 12 == year && k % 12 + 1 == m;
    PlainMonthIs(Date(year, m, 1));
    MonthTextIs(year, m);
    MonthEndIs(year, m);
    Num4OfPad4(year);
    assert KeyText(year, m, DaysInMonth(UtcYear(year), m))[..4] == Pad4(year);
    assert cutoff[..7][..4] == cutoff[..4];
  }

  /**
   * The months of a range are as many as asked for, and tile the time up to the cutoff with no gap and no overlap,
   * exactly when the oldest of them is not before the year 1000.
   */
  lemma MonthRangeTilesIff(cutoff: string, count: int)
    requires KstMonthRange(cutoff, count).Ok?
    ensures |KstMonthRange(cutoff, count).value| == Max(1, count)
    ensures Tiles(cutoff, KstMonthRange(cutoff, count).value) <==> FirstMonth(cutoff, count) >= 12_000
  {
    if FirstMonth(cutoff, count) >= 12_000 {
      TilesFromTheYear1000(cutoff, count);
    } else {
      NoTilesBefore(cutoff, count);
    }
  }

  /** Two months up to January of the year 1000: the older one is of the year 999, which prints with three digits. */
  lemma MonthRangeCanFail()
    ensures var cutoff := KeyText(1000, 1, 31);
            KstMonthRange(cutoff, 2).Ok? && !Tiles(cutoff, KstMonthRange(cutoff, 2).value)
  {
    var cutoff := KeyText(1000, 1, 31);
    MonthTextIs(1000, 1);
    MonthEndIs(1000, 1);
    CutoffOf(1000, 1, 31);
    MonthRangeTilesIff(cutoff, 2);
  }

  lemma CutoffOf(y: nat, m: nat, d: nat)
    requires y < 10_000 && 1 <= m <= 12 && d < 100
    ensures var s := KeyText(y, m, d); IsCutoff(s) && s[..7] == MonthText(y, m) && YearPart(s) == y && MonthPart(s) == m
  {
    var s := KeyText(y, m, d);
    MonthTextIs(y, m);
    TextPattern(y, m, d);
    assert s == Pad4(y) + (['-'] + (Pad2(m) + (['-'] + Pad2(d))));
    assert s[..7] == MonthText(y, m);
  }
}
