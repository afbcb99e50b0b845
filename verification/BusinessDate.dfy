/**
 * Business dates: calendar days as `YYYY-MM-DD` keys and as UTC midnights, and the Korean day and month they stand for.
 *
 * A normalised date is the number of its day; an instant is its milliseconds since 1970.
 */
module BusinessDate {
  import opened Common
  import opened Calendar
  import opened Decimal

  const DAY_MS: int := 86_400_000
  const KST_OFFSET_MS: int := 9 * 60 * 60 * 1000

  /** The days a time value can be in (section 21.4.1.1 of ECMA-262). */
  const MAX_DAY: int := 100_000_000

  datatype Error = ExpectedDate | ExpectedMonth | ExpectedCutoff | RangeError

  // ---- Printing and parsing --------------------------------------------------------------------------------------

  /** The year as `toISOString` prints it: four digits, or a sign and six. */
  function YearText(y: int): string
    requires -1_000_000 < y < 1_000_000
  {
    if 0 <= y < 10_000 then Pad4(y)
    else
      var n := if y < 0 then -y else y;
      [if y < 0 then '-' else '+'] + Pad2(n / 10_000) + Pad4(n % 10_000)
  }

  /** Read back, the text is the year: four digits if these are enough, and else a sign and six digits. */
  lemma YearTextIs(y: int)
    requires -1_000_000 < y < 1_000_000
    ensures var text := YearText(y);
            if 0 <= y <= 9999 then |text| == 4 && Num4(text) == y
            else
              && |text| == 7 && text[0] == (if y < 0 then '-' else '+')
              && 10_000 * Num2(text[1..3]) + Num4(text[3..]) == if y < 0 then -y else y
  {
    if 0 <= y <= 9999 {
      Num4OfPad4(y);
    } else {
      var n, text := if y < 0 then -y else y, YearText(y);
      Num2OfPad2(n / 10_000);
      Num4OfPad4(n % 10_000);
      assert text[1..3] == Pad2(n / 10_000) && text[3..] == Pad4(n % 10_000);
    }
  }

  predicate InRange(d: int) { -MAX_DAY <= d <= MAX_DAY }

  lemma YearInRange(d: int)
    requires InRange(d)
    ensures -1_000_000 < DateOf(d).year < 1_000_000
  {
    var y := DateOf(d).year;
    InItsYear(DateOf(d));
    DayFromYearBounds(y);
    DayFromYearBounds(y + 1);
  }

  /** `businessDateKey`: the first ten characters of the ISO text. */
  ghost function Key(d: int): string
    requires InRange(d)
  {
    var x := DateOf(d);
    YearInRange(d);
    (YearText(x.year) + ['-'] + Pad2(x.month) + ['-'] + Pad2(x.day))[..10]
  }

  ghost predicate FourDigitYear(d: int) { 0 <= DateOf(d).year <= 9999 }

  function KeyText(y: nat, m: nat, d: nat): string
    requires y < 10_000 && m < 100 && d < 100
  {
    Pad4(y) + (['-'] + (Pad2(m) + (['-'] + Pad2(d))))
  }

  lemma FourDigitRange(d: int)
    requires FourDigitYear(d)
    ensures InRange(d)
  {
    var y := DateOf(d).year;
    InItsYear(DateOf(d));
    DayFromYearBounds(y);
    DayFromYearBounds(y + 1);
  }

  lemma KeyIs(d: int)
    requires FourDigitYear(d)
    ensures InRange(d)
    ensures var x := DateOf(d); Key(d) == KeyText(x.year, x.month, x.day)
  {
    FourDigitRange(d);
    var x := DateOf(d);
    var text := YearText(x.year) + ['-'] + Pad2(x.month) + ['-'] + Pad2(x.day);
    assert text == KeyText(x.year, x.month, x.day);
    assert |text| == 10 && text[..10] == text;
  }

  predicate IsPattern(s: string) {
    && |s| == 10 && s[4] == '-' && s[7] == '-'
    && forall i | 0 <= i < 10 && i != 4 && i != 7 :: IsDigit(s[i])
  }

  /** Outside four-digit years a key is not a date again. */
  lemma KeyOutside(d: int)
    requires InRange(d) && !FourDigitYear(d)
    ensures !IsPattern(Key(d))
  {
  }

  lemma PatternText(s: string)
    requires IsPattern(s)
    ensures 0 <= Num4(s[..4]) < 10_000 && 0 <= Num2(s[5..7]) < 100 && 0 <= Num2(s[8..]) < 100
    ensures s == KeyText(Num4(s[..4]), Num2(s[5..7]), Num2(s[8..]))
  {
    Pad4OfNum4(s[..4]);
    Pad2OfNum2(s[5..7]);
    Pad2OfNum2(s[8..]);
    assert s == s[..4] + (['-'] + (s[5..7] + (['-'] + s[8..])));
  }

  lemma TextPattern(y: nat, m: nat, d: nat)
    requires y < 10_000 && m < 100 && d < 100
    ensures var s := KeyText(y, m, d);
            IsPattern(s) && Num4(s[..4]) == y && Num2(s[5..7]) == m && Num2(s[8..]) == d
  {
  }

  /** What `Date` makes of the three numbers; a month or day that no month has is no time at all. */
  function TimeOf(y: int, m: int, d: int): Option<int> {
    if 1 <= m <= 12 && 1 <= d <= 31 then Some(MakeDay(y, m - 1, d)) else None
  }

  /** `parseBusinessDate`: the day, if printing it gives the text back. */
  ghost function Parse(s: string): Option<int> {
    if !IsPattern(s) then None
    else
      var parsed := TimeOf(Num4(s[..4]), Num2(s[5..7]), Num2(s[8..]));
      if parsed.Some? && InRange(parsed.value) && Key(parsed.value) == s then parsed else None
  }

  /** Every four-digit-year date is read back from its key. */
  lemma ParseOfKey(d: int)
    requires FourDigitYear(d)
    ensures InRange(d) && Parse(Key(d)) == Some(d)
  {
    var x := DateOf(d);
    KeyIs(d);
    TextPattern(x.year, x.month, x.day);
    TimeOfDate(x);
    ParseOf(Key(d), x.year, x.month, x.day, d);
  }

  lemma TimeOfDate(x: Date)
    requires Valid(x)
    ensures TimeOf(x.year, x.month, x.day) == Some(DayNumber(x))
  {
  }

  lemma ParseOf(s: string, y: int, m: int, d: int, day: int)
    requires IsPattern(s) && Num4(s[..4]) == y && Num2(s[5..7]) == m && Num2(s[8..]) == d
    requires TimeOf(y, m, d) == Some(day) && InRange(day) && Key(day) == s
    ensures Parse(s) == Some(day)
  {
  }

  /** Parsing and printing undo each other: a text is read as a day exactly when it is that day's key. */
  lemma ParseIff(s: string, d: int)
    ensures Parse(s) == Some(d) <==> FourDigitYear(d) && InRange(d) && Key(d) == s
  {
    if Parse(s) == Some(d) && !FourDigitYear(d) { KeyOutside(d); }
    if FourDigitYear(d) && InRange(d) && Key(d) == s { ParseOfKey(d); }
  }

  /** A text is a business date exactly when it has the form of one and its month has that day. */
  lemma ParsesIff(s: string)
    ensures Parse(s).Some?
            <==> IsPattern(s) && Valid(Date(Num4(s[..4]), Num2(s[5..7]), Num2(s[8..])))
  {
    if IsPattern(s) {
      var x := Date(Num4(s[..4]), Num2(s[5..7]), Num2(s[8..]));
      PatternText(s);
      if Valid(x) {
        DateOfDay(x);
        KeyIs(DayNumber(x));
        ParseOfKey(DayNumber(x));
      }
      if Parse(s).Some? {
        var d := Parse(s).value;
        ParseIff(s, d);
        KeyIs(d);
        TextPattern(DateOf(d).year, DateOf(d).month, DateOf(d).day);
      }
    }
  }

  /** Keys compare as strings the way their dates compare. */
  lemma KeyOrder(a: int, b: int)
    requires FourDigitYear(a) && FourDigitYear(b)
    ensures InRange(a) && InRange(b) && (Less(Key(a), Key(b)) <==> a < b)
  {
    KeyIs(a);
    KeyIs(b);
    var (x, y) := (DateOf(a), DateOf(b));
    OrderKept(x, y);
    TextOrder(x, y);
  }

  lemma TextOrder(x: Date, y: Date)
    requires Valid(x) && Valid(y) && 0 <= x.year <= 9999 && 0 <= y.year <= 9999
    ensures Less(KeyText(x.year, x.month, x.day), KeyText(y.year, y.month, y.day)) <==> Earlier(x, y)
  {
    LessPad4(x.year, y.year);
    LessPad2(x.month, y.month);
    LessPad2(x.day, y.day);
    var (dayX, dayY) := (['-'] + Pad2(x.day), ['-'] + Pad2(y.day));
    var (monthX, monthY) := (['-'] + (Pad2(x.month) + dayX), ['-'] + (Pad2(y.month) + dayY));
    LessConcat(['-'], ['-'], Pad2(x.day), Pad2(y.day));
    LessConcat(Pad2(x.month), Pad2(y.month), dayX, dayY);
    LessConcat(['-'], ['-'], Pad2(x.month) + dayX, Pad2(y.month) + dayY);
    LessConcat(Pad4(x.year), Pad4(y.year), monthX, monthY);
    assert !Less(['-'], ['-']) by { assert ['-'][1..] == []; }
  }

  // ---- Shifting --------------------------------------------------------------------------------------------------

  /** `shiftBusinessDateKey`. */
  ghost function Shift(value: string, amount: int): Result<string, Error> {
    var parsed := Parse(value);
    if parsed.None? then Rejected(ExpectedDate)
    else if !InRange(parsed.value + amount) then Rejected(RangeError)
    else Ok(Key(parsed.value + amount))
  }

  lemma ShiftOf(value: string, d: int, a: int)
    requires Parse(value) == Some(d)
    ensures Shift(value, a) == if InRange(d + a) then Ok(Key(d + a)) else Rejected(RangeError)
  {
  }

  /** Shifting twice is shifting by the sum, exactly when what is in between is a business date. */
  lemma ShiftsCompose(value: string, a: int, mid: string, b: int)
    requires Parse(value).Some? && Shift(value, a) == Ok(mid)
    ensures Shift(mid, b) == Shift(value, a + b) <==> Parse(mid).Some?
  {
    var d := Parse(value).value;
    if Parse(mid).Some? {
      ShiftGoesTo(value, d, a, mid);
      SameShift(mid, d + a, b, value, d, a + b);
    } else {
      ShiftOf(value, d, a + b);
    }
  }

  lemma ShiftGoesTo(value: string, d: int, a: int, mid: string)
    requires Parse(value) == Some(d) && Shift(value, a) == Ok(mid)
    ensures Parse(mid).Some? ==> Parse(mid) == Some(d + a)
  {
    ShiftParses(value, d, a, mid);
  }

  /** What a shift gives is a business date again exactly when its year has four digits. */
  lemma ShiftParses(value: string, d: int, a: int, mid: string)
    requires Parse(value) == Some(d) && Shift(value, a) == Ok(mid)
    ensures Parse(mid) == if FourDigitYear(d + a) then Some(d + a) else None
  {
    ShiftIsKey(value, d, a, mid);
    KeyParses(d + a);
  }

  lemma ShiftIsKey(value: string, d: int, a: int, mid: string)
    requires Parse(value) == Some(d) && Shift(value, a) == Ok(mid)
    ensures InRange(d + a) && mid == Key(d + a)
  {
    ShiftOf(value, d, a);
  }

  /** A shift fails exactly if the text is no business date, or the day it leads to is past the ends of time values. */
  lemma ShiftFailsIff(value: string, a: int)
    ensures Shift(value, a) == Rejected(ExpectedDate) <==> Parse(value).None?
    ensures Shift(value, a) == Rejected(RangeError)
            <==> Parse(value).Some? && !(-100_000_000 <= Parse(value).value + a <= 100_000_000)
    ensures Shift(value, a).Rejected? ==> Shift(value, a).reason in {ExpectedDate, RangeError}
  {
    if Parse(value).Some? { ShiftOf(value, Parse(value).value, a); }
  }

  /** A key is read back if and only if its date has a four-digit year. */
  lemma KeyParses(d: int)
    requires InRange(d)
    ensures Parse(Key(d)) == if FourDigitYear(d) then Some(d) else None
  {
    if FourDigitYear(d) { ParseOfKey(d); } else { KeyOutside(d); }
  }

  lemma SameShift(v: string, d: int, a: int, w: string, e: int, b: int)
    requires Parse(v) == Some(d) && Parse(w) == Some(e) && d + a == e + b
    ensures Shift(v, a) == Shift(w, b)
  {
    ShiftOf(v, d, a);
    ShiftOf(w, e, b);
  }
}
