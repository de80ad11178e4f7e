/** Length-framed byte encodings, and what it takes to read them back. */
module Framing {
  import opened Prelude

  const U64: nat := 0x1_0000_0000_0000_0000
  const U32: nat := 0x1_0000_0000

  function Pow256(k: nat): nat {
    if k == 0 then 1 else 256 * Pow256(k - 1)
  }

  /** `n` in `width` bytes, most significant first. */
  function BigEndian(n: nat, width: nat): (b: Bytes)
    requires n < Pow256(width)
    ensures |b| == width
  {
    if width == 0 then [] else BigEndian(n / 256, width - 1) + [(n % 256) as byte]
  }

  lemma {:induction false} BigEndianInjective(m: nat, n: nat, width: nat)
    requires m < Pow256(width) && n < Pow256(width) && BigEndian(m, width) == BigEndian(n, width)
    ensures m == n
  {
    if width > 0 {
      var x, y := BigEndian(m / 256, width - 1), BigEndian(n / 256, width - 1);
      assert BigEndian(m, width)[..width - 1] == x && BigEndian(n, width)[..width - 1] == y;
      assert BigEndian(m, width)[width - 1] == (m % 256) as byte && BigEndian(n, width)[width - 1] == (n % 256) as byte;
      BigEndianInjective(m / 256, n / 256, width - 1);
    }
  }

  lemma Powers()
    ensures Pow256(8) == U64 && Pow256(4) == U32
  {
  }

  /** A byte string that knows its length. */
  function Framed(b: Bytes): Bytes
    requires |b| < U64
  {
    Powers();
    BigEndian(|b|, 8) + b
  }

  /** Framed strings can be read off the front of anything. */
  lemma FramedCancels(a: Bytes, x: Bytes, b: Bytes, y: Bytes)
    requires |a| < U64 && |b| < U64 && Framed(a) + x == Framed(b) + y
    ensures a == b && x == y
  {
    Powers();
    var s := Framed(a) + x;
    assert s[..8] == BigEndian(|a|, 8) && s[..8] == BigEndian(|b|, 8);
    BigEndianInjective(|a|, |b|, 8);
    assert s[8..8 + |a|] == a && s[8..8 + |a|] == b;
    assert s[8 + |a|..] == x && s[8 + |a|..] == y;
  }

  lemma PrefixCancels(p: Bytes, x: Bytes, q: Bytes, y: Bytes)
    requires |p| == |q| && p + x == q + y
    ensures p == q && x == y
  {
    assert (p + x)[..|p|] == p && (q + y)[..|p|] == q;
    assert (p + x)[|p|..] == x && (q + y)[|p|..] == y;
  }

  /** A value that may be absent. */
  function Optional(v: Option<Bytes>): Bytes
    requires v.Some? ==> |v.value| < U64
  {
    match v
    case None => [0]
    case Some(b) => [1] + Framed(b)
  }

  /** A tagged string shows its tag first. */
  lemma TagCancels(t: byte, p: Bytes, x: Bytes, u: byte, q: Bytes, y: Bytes)
    requires [t] + p + x == [u] + q + y
    ensures t == u && p + x == q + y
  {
    var s := [t] + p + x;
    assert s[0] == t && s[0] == u;
    assert s[1..] == p + x && s[1..] == q + y;
  }

  lemma OptionalCancels(a: Option<Bytes>, x: Bytes, b: Option<Bytes>, y: Bytes)
    requires (a.Some? ==> |a.value| < U64) && (b.Some? ==> |b.value| < U64) && Optional(a) + x == Optional(b) + y
    ensures a == b && x == y
  {
    var p, q := if a.Some? then Framed(a.value) else [], if b.Some? then Framed(b.value) else [];
    assert Optional(a) == [if a.Some? then 1 else 0] + p && Optional(b) == [if b.Some? then 1 else 0] + q;
    TagCancels(if a.Some? then 1 else 0, p, x, if b.Some? then 1 else 0, q, y);
    if a.Some? {
      FramedCancels(a.value, x, b.value, y);
    } else {
      assert [] + x == x && [] + y == y;
    }
  }

  // ----- reading -----

  /** The number some bytes stand for, most significant first. */
  function FromBigEndian(b: Bytes): nat {
    if b == [] then 0 else 256 * FromBigEndian(b[..|b| - 1]) + b[|b| - 1] as nat
  }

  lemma {:induction false} BigEndianReads(n: nat, width: nat)
    requires n < Pow256(width)
    ensures FromBigEndian(BigEndian(n, width)) == n
  {
    if width > 0 {
      BigEndianReads(n / 256, width - 1);
      assert BigEndian(n, width)[..width - 1] == BigEndian(n / 256, width - 1);
    }
  }

  /** What follows the tag of a tagged string. */
  lemma AfterTag(t: byte, p: Bytes, x: Bytes)
    ensures var s := [t] + p + x; s[0] == t && s[1..] == p + x
  {
  }

  /** Reads a length in eight bytes and as many bytes, and leaves what follows. */
  function ReadFramed(s: Bytes): Option<(Bytes, Bytes)> {
    if |s| < 8 then None
    else
      var n := FromBigEndian(s[..8]);
      if |s| < 8 + n then None else Some((s[8..8 + n], s[8 + n..]))
  }

  lemma FramedReads(b: Bytes, x: Bytes)
    requires |b| < U64
    ensures ReadFramed(Framed(b) + x) == Some((b, x))
  {
    Powers();
    BigEndianReads(|b|, 8);
    var s := Framed(b) + x;
    assert s[..8] == BigEndian(|b|, 8) && s[8..8 + |b|] == b && s[8 + |b|..] == x;
  }

  /** Reads a byte that says whether a framed string follows. */
  function ReadOptional(s: Bytes): Option<(Option<Bytes>, Bytes)> {
    if s == [] then None
    else if s[0] == 0 then Some((None, s[1..]))
    else if s[0] == 1 then
      match ReadFramed(s[1..])
      case None => None
      case Some((b, rest)) => Some((Some(b), rest))
    else None
  }

  lemma OptionalReads(v: Option<Bytes>, x: Bytes)
    requires v.Some? ==> |v.value| < U64
    ensures ReadOptional(Optional(v) + x) == Some((v, x))
  {
    if v.Some? {
      AfterTag(1, Framed(v.value), x);
      FramedReads(v.value, x);
    } else {
      assert (Optional(v) + x)[1..] == x;
    }
  }

  /** The bytes of an ASCII text. */
  function Ascii(text: string): Bytes
    requires forall i :: 0 <= i < |text| ==> text[i] < 128 as char
  {
    seq(|text|, i requires 0 <= i < |text| => text[i] as int as byte)
  }
}
