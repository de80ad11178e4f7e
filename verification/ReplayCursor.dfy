/** The textual form of a replay cursor. */
module ReplayCursor {
  import opened Prelude

  const U64_MAX: nat := 0xFFFF_FFFF_FFFF_FFFF
  const I64_MAX: nat := 0x7FFF_FFFF_FFFF_FFFF
  const ZERO: byte := 0x30

  predicate IsDigit(b: byte) {
    0x30 <= b <= 0x39
  }

  ghost predicate AllDigits(s: Bytes) {
    forall i :: 0 <= i < |s| ==> IsDigit(s[i])
  }

  /** The decimal text of a number. */
  function Print(n: nat): Bytes {
    if n < 10 then [(0x30 + n) as byte] else Print(n / 10) + [(0x30 + n % 10) as byte]
  }

  /** The number some digits stand for. */
  ghost function Value(s: Bytes): nat
    requires AllDigits(s)
  {
    if s == [] then 0 else 10 * Value(s[..|s| - 1]) + (s[|s| - 1] as int - 0x30)
  }

  ghost predicate IsCanonical(s: Bytes) {
    s != [] && AllDigits(s) && (|s| > 1 ==> s[0] != ZERO)
  }

  /** Printing gives canonical digits that stand for the number. */
  lemma {:induction false} PrintCanonical(n: nat)
    ensures IsCanonical(Print(n)) && Value(Print(n)) == n && (n > 0 ==> Print(n)[0] != ZERO)
  {
    if n < 10 {
      assert Print(n)[..0] == [];
    } else {
      PrintCanonical(n / 10);
      assert Print(n)[..|Print(n)| - 1] == Print(n / 10);
    }
  }

  lemma {:induction false} ValuePositive(s: Bytes)
    requires AllDigits(s) && s != [] && s[0] != ZERO
    ensures Value(s) > 0
  {
    if |s| > 1 {
      ValuePositive(s[..|s| - 1]);
    }
  }

  /** Canonical digits are the print of what they stand for. */
  lemma {:induction false} PrintValue(s: Bytes)
    requires IsCanonical(s)
    ensures Print(Value(s)) == s
  {
    var k := |s| - 1;
    if k == 0 {
      assert Value(s[..0]) == 0;
    } else {
      PrintValue(s[..k]);
      ValuePositive(s[..k]);
      assert s == s[..k] + [s[k]];
    }
  }

  lemma {:induction false} ValueGrows(s: Bytes, k: nat)
    requires AllDigits(s) && k <= |s|
    ensures Value(s[..k]) <= Value(s)
    decreases |s|
  {
    if k == |s| {
      assert s[..k] == s;
    } else {
      ValueGrows(s[..|s| - 1], k);
      assert s[..|s| - 1][..k] == s[..k];
    }
  }

  /** Reads digits into 64 bits, refusing what does not fit. */
  method ParseU64(s: Bytes) returns (r: Option<nat>)
    requires AllDigits(s) && s != []
    ensures r == if Value(s) <= U64_MAX then Some(Value(s)) else None
  {
    var n: nat := 0;
    for k := 0 to |s|
      invariant n == Value(s[..k]) <= U64_MAX
    {
      assert s[..k + 1][..k] == s[..k];
      ValueGrows(s, k + 1);
      if n * 10 > U64_MAX {
        return None;
      }
      var digit := s[k] as int - 0x30;
      if n * 10 + digit > U64_MAX {
        return None;
      }
      n := n * 10 + digit;
    }
    assert s[..|s|] == s;
    return Some(n);
  }

  method DigitsOnly(s: Bytes) returns (ok: bool)
    ensures ok <==> AllDigits(s)
  {
    for k := 0 to |s|
      invariant forall i :: 0 <= i < k ==> IsDigit(s[i])
    {
      if !IsDigit(s[k]) {
        return false;
      }
    }
    return true;
  }

  datatype CursorParseError = CursorParseError

  /**
   * Parses a cursor: exactly the decimal texts of 0 to 2^63 - 1, each to its own number. What is
   * parsed prints back to what was given, so the last comparison never rejects.
   */
  method Parse(value: Bytes) returns (r: Result<nat, CursorParseError>)
    ensures r.Ok? ==> r.value <= I64_MAX && Print(r.value) == value
    ensures r.Err? ==> forall n :: 0 <= n <= I64_MAX ==> Print(n) != value
  {
    if value == [] {
      RefusesOther(value);
      return Err(CursorParseError);
    }
    var digits := DigitsOnly(value);
    if !digits || (|value| > 1 && value[0] == ZERO) {
      RefusesOther(value);
      return Err(CursorParseError);
    }
    RefusesLarge(value);
    var parsed := ParseU64(value);
    if parsed.None? || parsed.value > I64_MAX {
      return Err(CursorParseError);
    }
    PrintValue(value);
    if Print(parsed.value) != value {
      assert false;
    }
    return Ok(parsed.value);
  }

  lemma RefusesOther(value: Bytes)
    requires !IsCanonical(value)
    ensures forall n :: 0 <= n <= I64_MAX ==> Print(n) != value
  {
    forall n | 0 <= n <= I64_MAX
      ensures Print(n) != value
    {
      PrintCanonical(n);
    }
  }

  lemma RefusesLarge(value: Bytes)
    requires IsCanonical(value)
    ensures Value(value) > I64_MAX ==> forall n :: 0 <= n <= I64_MAX ==> Print(n) != value
  {
    forall n | 0 <= n <= I64_MAX && Value(value) > I64_MAX
      ensures Print(n) != value
    {
      PrintCanonical(n);
    }
  }

  /** Different numbers print differently. */
  lemma PrintInjective(m: nat, n: nat)
    requires Print(m) == Print(n)
    ensures m == n
  {
    PrintCanonical(m);
    PrintCanonical(n);
  }
}
