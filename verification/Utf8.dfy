/** UTF-8 byte sequences, after the syntax of section 4 of RFC 3629. */
module Utf8 {
  import opened Prelude

  predicate Tail(b: byte) {
    0x80 <= b <= 0xBF
  }

  /** The length of the scalar value that `s` starts with, or 0 if it starts with none. */
  function ScalarLength(s: Bytes): (n: nat)
    ensures n <= 4 && n <= |s|
  {
    if |s| >= 1 && s[0] <= 0x7F then 1
    else if |s| >= 2 && 0xC2 <= s[0] <= 0xDF && Tail(s[1]) then 2
    else if |s| >= 3 && Lead3(s[0], s[1]) && Tail(s[2]) then 3
    else if |s| >= 4 && Lead4(s[0], s[1]) && Tail(s[2]) && Tail(s[3]) then 4
    else 0
  }

  predicate Lead3(a: byte, b: byte) {
    || (a == 0xE0 && 0xA0 <= b <= 0xBF)
    || (0xE1 <= a <= 0xEC && Tail(b))
    || (a == 0xED && 0x80 <= b <= 0x9F)
    || (0xEE <= a <= 0xEF && Tail(b))
  }

  predicate Lead4(a: byte, b: byte) {
    || (a == 0xF0 && 0x90 <= b <= 0xBF)
    || (0xF1 <= a <= 0xF3 && Tail(b))
    || (a == 0xF4 && 0x80 <= b <= 0x8F)
  }

  /** A sequence of scalar values. */
  predicate ValidUtf8(s: Bytes) {
    s == [] || (ScalarLength(s) > 0 && ValidUtf8(s[ScalarLength(s)..]))
  }

  /** The string type's own test: an end of the string, or a byte that does not continue a scalar. */
  predicate IsBoundary(s: Bytes, i: nat) {
    i == 0 || i == |s| || (i < |s| && !Tail(s[i]))
  }

  /** Inside a scalar every byte is a continuation. */
  lemma Interior(s: Bytes, i: nat)
    requires 0 < i < ScalarLength(s)
    ensures Tail(s[i])
  {
  }

  /** The first scalar depends on its own bytes only. */
  lemma FirstScalar(s: Bytes, t: Bytes)
    requires ScalarLength(s) > 0
    ensures ScalarLength(s[..ScalarLength(s)] + t) == ScalarLength(s)
  {
  }

  lemma ScalarThen(s: Bytes, t: Bytes)
    requires ScalarLength(s) == |s| > 0 && ValidUtf8(t)
    ensures ValidUtf8(s + t)
  {
  }

  lemma ScalarAlone(s: Bytes)
    requires ScalarLength(s) > 0
    ensures ScalarLength(s[..ScalarLength(s)]) == ScalarLength(s)
  {
  }

  lemma Rejoin(s: Bytes, n: nat, t: Bytes)
    requires n <= |s|
    ensures s[..n] + (s[n..] + t) == s + t
  {
  }

  lemma {:induction false} ConcatValid(s: Bytes, t: Bytes)
    requires ValidUtf8(s) && ValidUtf8(t)
    ensures ValidUtf8(s + t)
  {
    if s == [] {
      assert s + t == t;
    } else {
      var n := ScalarLength(s);
      ConcatValid(s[n..], t);
      ScalarAlone(s);
      ScalarThen(s[..n], s[n..] + t);
      Rejoin(s, n, t);
    }
  }

  /** A boundary of a string is exactly where it splits into two strings. */
  lemma {:induction false} BoundarySplits(s: Bytes, i: nat)
    requires ValidUtf8(s) && i <= |s|
    ensures IsBoundary(s, i) <==> ValidUtf8(s[..i]) && ValidUtf8(s[i..])
    decreases |s|
  {
    if i == 0 {
      assert s[..i] == [] && s[i..] == s;
    } else if i == |s| {
      assert s[..i] == s && s[i..] == [];
    } else {
      var n := ScalarLength(s);
      if i < n {
        Interior(s, i);
      } else {
        BoundarySplits(s[n..], i - n);
        SplitRest(s, i);
      }
    }
  }

  lemma SplitRest(s: Bytes, i: nat)
    requires ScalarLength(s) > 0 && ScalarLength(s) <= i < |s|
    ensures var n := ScalarLength(s);
            && s[n..][i - n..] == s[i..]
            && (ValidUtf8(s[..i]) <==> ValidUtf8(s[n..][..i - n]))
            && (n < i ==> (IsBoundary(s, i) <==> IsBoundary(s[n..], i - n)))
            && (n == i && ValidUtf8(s[i..]) ==> IsBoundary(s, i))
  {
    var n := ScalarLength(s);
    assert s[..i] == s[..n] + s[n..][..i - n];
    FirstScalar(s, s[n..][..i - n]);
    assert s[..i][n..] == s[n..][..i - n];
    if n == i && ValidUtf8(s[i..]) {
      assert ScalarLength(s[i..]) > 0;
    }
  }

  /** Scalars are at most four bytes, so a boundary is never far. */
  lemma {:induction false} BoundaryNear(s: Bytes, i: nat) returns (k: nat)
    requires ValidUtf8(s) && i <= |s|
    ensures k <= i <= k + 3 && IsBoundary(s, k)
    decreases |s|
  {
    if i < ScalarLength(s) || s == [] {
      k := 0;
    } else {
      var n := ScalarLength(s);
      var rest := BoundaryNear(s[n..], i - n);
      k := n + rest;
      if rest == 0 && n < |s| {
        assert ScalarLength(s[n..]) > 0;
      }
    }
  }

  /** A string splits after any one-byte scalar. */
  lemma {:induction false} AfterAscii(s: Bytes, i: nat)
    requires ValidUtf8(s) && i < |s| && s[i] <= 0x7F
    ensures IsBoundary(s, i + 1)
    decreases |s|
  {
    var n := ScalarLength(s);
    if i < n {
      if i > 0 {
        Interior(s, i);
      }
      if n < |s| {
        assert ScalarLength(s[n..]) > 0;
      }
    } else {
      AfterAscii(s[n..], i - n);
    }
  }
}
