/** Decimal digits and text in the order of its characters. */
module Decimal {

  predicate IsDigit(c: char) { '0' <= c <= '9' }

  function DigitChar(d: nat): (c: char)
    requires d < 10
    ensures IsDigit(c) && DigitValue(c) == d
  {
    ('0' as int + d) as char
  }

  function DigitValue(c: char): int { c as int - '0' as int }

  /** A number without leading zeros. */
  function Digits(n: nat): (s: string)
    ensures s != []
  {
    if n < 10 then [DigitChar(n)] else Digits(n / 10) + [DigitChar(n % 10)]
  }

  function Value(s: string): int {
    if s == [] then 0 else 10 * Value(s[..|s| - 1]) + DigitValue(s[|s| - 1])
  }

  lemma {:induction false} DigitsAreDigits(n: nat)
    ensures forall i | 0 <= i < |Digits(n)| :: IsDigit(Digits(n)[i])
    ensures Value(Digits(n)) == n
  {
    if n < 10 {
      var s := Digits(n);
      assert s[..|s| - 1] == [];
    } else {
      DigitsAreDigits(n / 10);
      var s := Digits(n);
      assert s[..|s| - 1] == Digits(n / 10);
    }
  }

  // ---- Padded numbers --------------------------------------------------------------------------------------------

  function Pad2(n: nat): (s: string)
    requires n < 100
    ensures |s| == 2
  {
    [DigitChar(n / 10), DigitChar(n % 10)]
  }

  function Num2(s: string): int
    requires |s| == 2
  {
    10 * DigitValue(s[0]) + DigitValue(s[1])
  }

  function Pad4(n: nat): (s: string)
    requires n < 10000
    ensures |s| == 4
  {
    Pad2(n / 100) + Pad2(n % 100)
  }

  function Num4(s: string): int
    requires |s| == 4
  {
    100 * Num2(s[..2]) + Num2(s[2..])
  }

  lemma Num2OfPad2(n: nat)
    requires n < 100
    ensures var s := Pad2(n); IsDigit(s[0]) && IsDigit(s[1]) && Num2(s) == n
  {
  }

  lemma Num4OfPad4(n: nat)
    requires n < 10000
    ensures var s := Pad4(n); (forall i | 0 <= i < 4 :: IsDigit(s[i])) && Num4(s) == n
  {
  }

  lemma Pad2OfNum2(s: string)
    requires |s| == 2 && IsDigit(s[0]) && IsDigit(s[1])
    ensures 0 <= Num2(s) < 100 && Pad2(Num2(s)) == s
  {
  }

  lemma Pad4OfNum4(s: string)
    requires |s| == 4 && forall i | 0 <= i < 4 :: IsDigit(s[i])
    ensures 0 <= Num4(s) < 10000 && Pad4(Num4(s)) == s
  {
  }

  // ---- The order of strings --------------------------------------------------------------------------------------

  /** JavaScript's `<` on strings of one-unit characters. */
  predicate Less(a: string, b: string) {
    if b == [] then false
    else if a == [] then true
    else if a[0] != b[0] then a[0] < b[0]
    else Less(a[1..], b[1..])
  }

  /** The strings agree up to a place at which the first one ends or has the smaller character. */
  predicate LessAt(a: string, b: string, n: nat) {
    n < |b| && n <= |a| && a[..n] == b[..n] && (n < |a| ==> a[n] < b[n])
  }

  lemma {:induction false} LessIff(a: string, b: string)
    ensures Less(a, b) <==> exists n: nat :: LessAt(a, b, n)
  {
    if a == [] {
      if b != [] { assert LessAt(a, b, 0); }
    } else if b == [] {
    } else if a[0] != b[0] {
      if a[0] < b[0] { assert LessAt(a, b, 0); }
      assert forall n: nat | 0 < n <= |a| && n < |b| :: a[..n][0] == a[0] && b[..n][0] == b[0];
    } else {
      LessIff(a[1..], b[1..]);
      forall n: nat | LessAt(a[1..], b[1..], n) ensures LessAt(a, b, n + 1) {
        assert a[..n + 1] == [a[0]] + a[1..][..n] && b[..n + 1] == [b[0]] + b[1..][..n];
      }
      forall n: nat | LessAt(a, b, n) ensures n > 0 && LessAt(a[1..], b[1..], n - 1) {
        if n > 0 { assert a[1..][..n - 1] == a[..n][1..] && b[1..][..n - 1] == b[..n][1..]; }
      }
      if n: nat :| LessAt(a[1..], b[1..], n) { assert LessAt(a, b, n + 1); }
      if n: nat :| LessAt(a, b, n) { assert LessAt(a[1..], b[1..], n - 1); }
    }
  }

  lemma {:induction false} LessConcat(a: string, b: string, x: string, y: string)
    requires |a| == |b|
    ensures Less(a + x, b + y) <==> Less(a, b) || (a == b && Less(x, y))
  {
    if a == [] {
      assert a + x == x && b + y == y;
    } else {
      assert (a + x)[1..] == a[1..] + x && (b + y)[1..] == b[1..] + y;
      assert a == [a[0]] + a[1..] && b == [b[0]] + b[1..];
      LessConcat(a[1..], b[1..], x, y);
    }
  }

  lemma LessDigit(a: nat, b: nat)
    requires a < 10 && b < 10
    ensures Less([DigitChar(a)], [DigitChar(b)]) <==> a < b
    ensures [DigitChar(a)] == [DigitChar(b)] <==> a == b
  {
  }

  /** Padded numbers compare as the numbers do. */
  lemma LessPad2(a: nat, b: nat)
    requires a < 100 && b < 100
    ensures Less(Pad2(a), Pad2(b)) <==> a < b
    ensures Pad2(a) == Pad2(b) <==> a == b
  {
    LessDigit(a / 10, b / 10);
    LessDigit(a % 10, b % 10);
    LessConcat([DigitChar(a / 10)], [DigitChar(b / 10)], [DigitChar(a % 10)], [DigitChar(b % 10)]);
    assert Pad2(a) == [DigitChar(a / 10)] + [DigitChar(a % 10)] && Pad2(b) == [DigitChar(b / 10)] + [DigitChar(b % 10)];
    Num2OfPad2(a);
    Num2OfPad2(b);
  }

  lemma LessPad4(a: nat, b: nat)
    requires a < 10000 && b < 10000
    ensures Less(Pad4(a), Pad4(b)) <==> a < b
    ensures Pad4(a) == Pad4(b) <==> a == b
  {
    LessPad2(a / 100, b / 100);
    LessPad2(a % 100, b % 100);
    LessConcat(Pad2(a / 100), Pad2(b / 100), Pad2(a % 100), Pad2(b % 100));
    Num4OfPad4(a);
    Num4OfPad4(b);
  }
}
