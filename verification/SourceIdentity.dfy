/**
 * The identity of a migration's source file: its bytes with every CRLF turned into LF, hashed, and compared with the
 * hash a ledger row records. SHA-256 is any function on byte strings.
 */
module SourceIdentity {
  import opened Common

  newtype byte = x: int | 0 <= x < 256

  const CARRIAGE_RETURN: byte := 0x0d
  const LINE_FEED: byte := 0x0a

  // ---- Line endings ----------------------------------------------------------------------------------------------

  predicate StartsCrlf(s: seq<byte>) { |s| >= 2 && s[0] == CARRIAGE_RETURN && s[1] == LINE_FEED }

  /** A source with every carriage return that stands directly before a line feed deleted. */
  function Normal(s: seq<byte>): (r: seq<byte>)
    ensures |r| <= |s|
  {
    if s == [] then [] else (if StartsCrlf(s) then [] else [s[0]]) + Normal(s[1..])
  }

  predicate HasCrlf(s: seq<byte>) { exists i | 0 <= i < |s| :: StartsCrlf(s[i..]) }

  /** A checkout that turns every line feed into a carriage return and a line feed. */
  function ToCrlf(s: seq<byte>): seq<byte> {
    if s == [] then []
    else (if s[0] == LINE_FEED then [CARRIAGE_RETURN, LINE_FEED] else [s[0]]) + ToCrlf(s[1..])
  }

  lemma {:induction false} NormalWithoutCrlf(s: seq<byte>)
    requires !HasCrlf(s)
    ensures Normal(s) == s
  {
    if s != [] {
      assert s[0..] == s;
      forall i | 0 <= i < |s| - 1 ensures !StartsCrlf(s[1..][i..]) {
        assert s[1..][i..] == s[i + 1..];
      }
      NormalWithoutCrlf(s[1..]);
    }
  }

  lemma {:induction false} NormalShortens(s: seq<byte>, i: nat)
    requires i < |s| && StartsCrlf(s[i..])
    ensures |Normal(s)| < |s|
  {
    if i == 0 {
      assert s[0..] == s;
    } else {
      assert s[i..] == s[1..][i - 1..];
      NormalShortens(s[1..], i - 1);
    }
  }

  /** The conversion leaves a source exactly as it is when the source has no CRLF. */
  lemma NormalIsIdentityIff(s: seq<byte>)
    ensures Normal(s) == s <==> !HasCrlf(s)
  {
    if HasCrlf(s) {
      var i :| 0 <= i < |s| && StartsCrlf(s[i..]);
      NormalShortens(s, i);
    } else {
      NormalWithoutCrlf(s);
    }
  }

  /** Undoing the CRLF checkout of any source gives that source back, even one that has carriage returns of its own. */
  lemma {:induction false} NormalUndoesToCrlf(s: seq<byte>)
    ensures Normal(ToCrlf(s)) == s
  {
    if s != [] {
      var t, rest := ToCrlf(s), ToCrlf(s[1..]);
      NormalUndoesToCrlf(s[1..]);
      if s[0] == LINE_FEED {
        assert t[1..] == [LINE_FEED] + rest && t[1..][1..] == rest;
        assert !StartsCrlf(t[1..]);
        assert Normal(t[1..]) == [LINE_FEED] + Normal(rest);
      } else {
        assert t[1..] == rest;
        assert rest == [] || rest[0] != LINE_FEED;
        assert Normal(t) == [s[0]] + Normal(rest);
      }
    }
  }

  /** An LF and a CRLF checkout of a source have the same identity exactly when the source has no CRLF itself. */
  lemma CheckoutsAgreeIff(s: seq<byte>)
    ensures Normal(ToCrlf(s)) == Normal(s) <==> !HasCrlf(s)
  {
    NormalUndoesToCrlf(s);
    NormalIsIdentityIff(s);
  }

  /** One line that ends in CRLF is such a source. */
  lemma CheckoutsCanDiffer()
    ensures var s := [CARRIAGE_RETURN, LINE_FEED]; Normal(s) == [LINE_FEED] && Normal(ToCrlf(s)) == s
  {
    var s := [CARRIAGE_RETURN, LINE_FEED];
    NormalUndoesToCrlf(s);
    assert s[1..] == [LINE_FEED] && s[1..][1..] == [];
    assert Normal(s[1..]) == [LINE_FEED] + Normal([]);
  }

  /** Turning CRLF into LF can leave a CRLF behind, so the conversion done twice is not the conversion. */
  lemma NormalTwiceDiffers()
    ensures var s := [CARRIAGE_RETURN, CARRIAGE_RETURN, LINE_FEED]; Normal(Normal(s)) != Normal(s)
  {
    var s := [CARRIAGE_RETURN, CARRIAGE_RETURN, LINE_FEED];
    assert s[1..] == [CARRIAGE_RETURN, LINE_FEED] && s[1..][1..] == [LINE_FEED] && s[1..][1..][1..] == [];
    assert Normal(s[1..][1..]) == [LINE_FEED] + Normal([]);
    assert Normal(s[1..]) == Normal(s[1..][1..]);
    assert Normal(s) == [CARRIAGE_RETURN] + Normal(s[1..]) == s[1..];
  }

  predicate CrlfAt(s: seq<byte>, i: nat)
    requires i < |s|
  {
    s[i] == CARRIAGE_RETURN && i + 1 < |s| && s[i + 1] == LINE_FEED
  }

  lemma NormalSkips(s: seq<byte>, i: nat)
    requires i < |s| && CrlfAt(s, i)
    ensures Normal(s[i..]) == Normal(s[i + 1..])
  {
  }

  lemma NormalTakes(s: seq<byte>, i: nat, done: seq<byte>)
    requires i < |s| && !CrlfAt(s, i)
    ensures done + Normal(s[i..]) == (done + [s[i]]) + Normal(s[i + 1..])
  {
  }

  /** The filter as it is run: one pass over the bytes into a buffer, of which a beginning is used. */
  method WithoutCarriageReturnsBeforeLineFeeds(bytes: array<byte>) returns (normalized: array<byte>, length: nat)
    ensures length <= normalized.Length && normalized[..length] == Normal(bytes[..])
    ensures normalized == bytes || fresh(normalized)
  {
    if CARRIAGE_RETURN !in bytes[..] {
      NormalWithoutCrlf(bytes[..]);
      assert bytes[..bytes.Length] == bytes[..];
      return bytes, bytes.Length;
    }
    normalized, length := Filtered(bytes);
  }

  method Filtered(bytes: array<byte>) returns (normalized: array<byte>, length: nat)
    ensures length <= normalized.Length && normalized[..length] == Normal(bytes[..])
    ensures fresh(normalized)
  {
    normalized, length := new byte[bytes.Length](_ => 0), 0;
    ghost var s := bytes[..];
    assert s[0..] == s;
    for index := 0 to bytes.Length
      invariant length <= index && bytes[..] == s
      invariant Normal(s) == normalized[..length] + Normal(s[index..])
    {
      if bytes[index] == CARRIAGE_RETURN && index + 1 < bytes.Length && bytes[index + 1] == LINE_FEED {
        NormalSkips(s, index);
        continue;
      }
      NormalTakes(s, index, normalized[..length]);
      normalized[length] := bytes[index];
      length := length + 1;
      assert normalized[..length] == normalized[..length - 1] + [s[index]];
    }
  }

  // ---- The verdict about a ledger row ----------------------------------------------------------------------------

  datatype SourceCheck =
    | Match | Drift | DerivedMatch | DerivedDrift | Unknown | Retired | Unregistered

  function Classify<H(==)>(
    registered: bool, retired: bool, recorded: Option<H>, current: Option<H>, derived: Option<H>): SourceCheck
  {
    if !registered then (if retired then Retired else Unregistered)
    else if recorded.Some? then (if recorded == current then Match else Drift)
    else if derived.Some? then (if derived == current then DerivedMatch else DerivedDrift)
    else Unknown
  }

  /** The verdicts one by one: a row without a record is judged by the hash that can be derived for it, if there is one. */
  lemma ClassifyIs<H>(
    registered: bool, retired: bool, recorded: Option<H>, current: Option<H>, derived: Option<H>)
    ensures var check := Classify(registered, retired, recorded, current, derived);
            && (check.Retired? <==> !registered && retired)
            && (check.Unregistered? <==> !registered && !retired)
            && (check.Unknown? <==> registered && recorded.None? && derived.None?)
            && (check.Match? <==> registered && recorded.Some? && recorded == current)
            && (check.Drift? <==> registered && recorded.Some? && recorded != current)
            && (check.DerivedMatch? <==> registered && recorded.None? && derived.Some? && derived == current)
            && (check.DerivedDrift? <==> registered && recorded.None? && derived.Some? && derived != current)
  {
  }

  function Checkout(s: seq<byte>, crlf: bool): seq<byte> { if crlf then ToCrlf(s) else s }

  /**
   * The verdict on a registered migration does not depend on line endings: whichever way the source that ran and the
   * source of today are checked out, a row with a hash on record matches if and only if the hashes of the two sources
   * are equal.
   */
  lemma VerdictIgnoresLineEndings<H>(
    hash: seq<byte> -> H, ran: seq<byte>, now: seq<byte>, crlfThen: bool, crlfNow: bool, retired: bool,
    derived: Option<H>)
    requires !HasCrlf(ran) && !HasCrlf(now)
    ensures Classify(true, retired, Some(hash(Normal(Checkout(ran, crlfThen)))),
                     Some(hash(Normal(Checkout(now, crlfNow)))), derived)
            == if hash(ran) == hash(now) then Match else Drift
  {
    NormalUndoesToCrlf(ran);
    NormalUndoesToCrlf(now);
    NormalIsIdentityIff(ran);
    NormalIsIdentityIff(now);
  }
}
