/** PR label names: `#<number> <title>`, printed as a prefix and read back as a number. */
module PrLabels {
  import opened Common
  import opened Decimal

  /** How many digits a string starts with. */
  function DigitRun(s: string): (n: nat)
    ensures n <= |s|
  {
    if s == [] || !IsDigit(s[0]) then 0 else 1 + DigitRun(s[1..])
  }

  function Prefix(number: nat): string { ['#'] + Digits(number) + [' '] }

  /** The number at the start of a label's name: a hash sign, digits, a space. */
  function NumberOf(name: string): Option<int> {
    if name == [] || name[0] != '#' then None
    else
      var k := DigitRun(name[1..]);
      if k == 0 || 1 + k >= |name| || name[1 + k] != ' ' then None else Some(Value(name[1..1 + k]))
  }

  lemma {:induction false} DigitRunIs(digits: string, rest: string)
    requires (forall i | 0 <= i < |digits| :: IsDigit(digits[i])) && (rest == [] || !IsDigit(rest[0]))
    ensures DigitRun(digits + rest) == |digits|
  {
    if digits == [] {
      assert digits + rest == rest;
    } else {
      assert (digits + rest)[1..] == digits[1..] + rest;
      DigitRunIs(digits[1..], rest);
    }
  }

  /** A label's name has a number exactly if it starts with a hash sign, digits and a space; these digits are it. */
  lemma ReadsIff(name: string)
    ensures NumberOf(name).Some? <==> exists n | 0 < n < |name| - 1 :: IsNumbered(name, n)
    ensures forall n | 0 < n < |name| - 1 && IsNumbered(name, n) :: NumberOf(name) == Some(Value(name[1..1 + n]))
  {
    if name != [] && name[0] == '#' {
      var k := DigitRun(name[1..]);
      DigitRunStops(name[1..]);
      forall n | 0 < n < |name| - 1 && IsNumbered(name, n) ensures n == k {
        assert name[1..] == name[1..1 + n] + name[1 + n..];
        DigitRunIs(name[1..1 + n], name[1 + n..]);
      }
      if NumberOf(name).Some? { assert IsNumbered(name, k); }
    }
  }

  predicate IsNumbered(name: string, n: nat)
    requires n < |name| - 1
  {
    name[0] == '#' && name[1 + n] == ' ' && forall i | 1 <= i < 1 + n :: IsDigit(name[i])
  }

  lemma {:induction false} DigitRunStops(s: string)
    ensures forall i | 0 <= i < DigitRun(s) :: IsDigit(s[i])
    ensures DigitRun(s) < |s| ==> !IsDigit(s[DigitRun(s)])
  {
    if s != [] && IsDigit(s[0]) { DigitRunStops(s[1..]); }
  }

  /** A name that starts with a number's prefix is read back as that number. */
  lemma PrefixReadsBack(number: nat, name: string)
    requires Prefix(number) <= name
    ensures NumberOf(name) == Some(number)
  {
    var digits := Digits(number);
    DigitsAreDigits(number);
    var rest := name[1 + |digits|..];
    assert name[0] == Prefix(number)[0] && name[1 + |digits|] == Prefix(number)[1 + |digits|] == ' ';
    assert name[1..] == digits + rest by {
      assert name[..|digits| + 2] == Prefix(number);
      assert name[1..1 + |digits|] == digits;
    }
    DigitRunIs(digits, rest);
    assert name[1..1 + |digits|] == digits;
  }

  /** No name carries the prefixes of two numbers. */
  lemma PrefixesDiffer(p: nat, q: nat, name: string)
    requires Prefix(p) <= name && Prefix(q) <= name
    ensures p == q
  {
    PrefixReadsBack(p, name);
    PrefixReadsBack(q, name);
  }

  /** Reading a number does not always lead back to its prefix: a leading zero is read and not printed. */
  lemma LeadingZeroReadsOnly()
    ensures var name := ['#', '0', '7', ' ']; NumberOf(name) == Some(7) && !(Prefix(7) <= name)
  {
    var name := ['#', '0', '7', ' '];
    var tail := name[1..];
    assert tail == ['0', '7'] + [' '];
    DigitRunIs(['0', '7'], [' ']);
    var digits := name[1..3];
    assert digits == ['0', '7'] && digits[..1] == ['0'] && ['0'][..0] == [];
    assert Value(['0']) == 0;
    assert Prefix(7)[1] == '7';
  }
}
