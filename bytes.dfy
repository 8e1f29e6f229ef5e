/** Byte strings and the fixed-width unsigned integers they encode.

    `U256::to_le_bytes` gives the little-endian bytes of a 256-bit number;
    `Vec::reverse` turns them around in place.  The lemmas here show that the
    result is the big-endian encoding of the number, and that this encoding is
    a bijection between the numbers below 2^256 and the 32-byte strings. */
module Bytes {

  type Byte = x: int | 0 <= x < 256

  /** An object identity or an address: 32 bytes, most significant first. */
  type ObjectID = seq<Byte>

  /** A content digest of an object, checkpoint or package. */
  type Digest = seq<Byte>

  /** 256 to the power `w`: the number of distinct `w`-byte strings. */
  function Pow256(w: nat): (r: nat)
    ensures r > 0
  {
    if w == 0 then 1 else 256 * Pow256(w - 1)
  }

  /** The first `w` little-endian bytes of `n` (what `to_le_bytes` returns
      for a `w`-byte integer type). */
  function LeBytes(n: nat, w: nat): (r: seq<Byte>)
    ensures |r| == w
  {
    if w == 0 then [] else [n % 256] + LeBytes(n / 256, w - 1)
  }

  /** The number a little-endian byte string denotes. */
  function LeValue(s: seq<Byte>): nat
  {
    if s == [] then 0 else s[0] + 256 * LeValue(s[1..])
  }

  /** The number a big-endian byte string denotes: the last byte is the least
      significant one. */
  function BeValue(s: seq<Byte>): nat
  {
    if s == [] then 0 else 256 * BeValue(s[..|s| - 1]) + s[|s| - 1]
  }

  function Reversed<T>(s: seq<T>): (r: seq<T>)
    ensures |r| == |s|
  {
    if s == [] then [] else Reversed(s[1..]) + [s[0]]
  }

  lemma {:induction false} ReversedAt<T>(s: seq<T>, k: nat)
    requires k < |s|
    ensures Reversed(s)[k] == s[|s| - 1 - k]
  {
    if k < |s| - 1 {
      ReversedAt(s[1..], k);
    }
  }

  lemma {:induction false} ReversedTwice<T>(s: seq<T>)
    ensures Reversed(Reversed(s)) == s
  {
    var r := Reversed(Reversed(s));
    forall k | 0 <= k < |s|
      ensures r[k] == s[k]
    {
      ReversedAt(Reversed(s), k);
      ReversedAt(s, |s| - 1 - k);
    }
  }

  /** Reading a reversed string big-endian is reading the original
      little-endian. */
  lemma {:induction false} BeValueOfReversed(s: seq<Byte>)
    ensures BeValue(Reversed(s)) == LeValue(s)
  {
    if s != [] {
      var r := Reversed(s);
      assert r[..|r| - 1] == Reversed(s[1..]);
      BeValueOfReversed(s[1..]);
    }
  }

  lemma DivBelowPow(n: nat, w: nat)
    requires w > 0 && n < Pow256(w)
    ensures n / 256 < Pow256(w - 1)
  {
  }

  /** Decoding the little-endian bytes of a number that fits gives it back. */
  lemma {:induction false} LeValueOfLeBytes(n: nat, w: nat)
    requires n < Pow256(w)
    ensures LeValue(LeBytes(n, w)) == n
  {
    if w > 0 {
      var s := LeBytes(n, w);
      assert s[1..] == LeBytes(n / 256, w - 1);
      DivBelowPow(n, w);
      LeValueOfLeBytes(n / 256, w - 1);
    }
  }

  /** Every byte string denotes a number below 256^length. */
  lemma {:induction false} LeValueBound(s: seq<Byte>)
    ensures LeValue(s) < Pow256(|s|)
  {
    if s != [] {
      LeValueBound(s[1..]);
      assert LeValue(s) <= 255 + 256 * (Pow256(|s| - 1) - 1);
    }
  }

  /** Encoding the number a string denotes gives the string back. */
  lemma {:induction false} LeBytesOfLeValue(s: seq<Byte>)
    ensures LeBytes(LeValue(s), |s|) == s
  {
    if s != [] {
      var v := LeValue(s[1..]);
      var n := s[0] + 256 * v;
      assert n % 256 == s[0] && n / 256 == v;
      LeBytesOfLeValue(s[1..]);
    }
  }

  /** The 32 address bytes `to_le_bytes` followed by `reverse` produce for a
      256-bit number. */
  function BigEndian32(n: nat): (r: seq<Byte>)
    requires n < Pow256(32)
  {
    Reversed(LeBytes(n, 32))
  }

  /** The reversed little-endian bytes are the big-endian encoding. */
  lemma BigEndian32Encodes(n: nat)
    requires n < Pow256(32)
    ensures |BigEndian32(n)| == 32 && BeValue(BigEndian32(n)) == n
  {
    BeValueOfReversed(LeBytes(n, 32));
    LeValueOfLeBytes(n, 32);
  }

  /** Every 32-byte string is the encoding of exactly one 256-bit number. */
  lemma BigEndian32Decodes(a: seq<Byte>)
    requires |a| == 32
    ensures BeValue(a) < Pow256(32) && BigEndian32(BeValue(a)) == a
  {
    var r := Reversed(a);
    ReversedTwice(a);
    BeValueOfReversed(r);
    LeValueBound(r);
    LeBytesOfLeValue(r);
  }

  /** `Vec::reverse`: reverses a buffer in place. */
  method ReverseInPlace(a: array<Byte>)
    modifies a
    ensures a[..] == Reversed(old(a[..]))
  {
    var n, i := a.Length, 0;
    while i < n / 2
      invariant 0 <= i <= n / 2
      invariant forall k :: 0 <= k < i ==> a[k] == old(a[n - 1 - k]) && a[n - 1 - k] == old(a[k])
      invariant forall k :: i <= k < n - i ==> a[k] == old(a[k])
    {
      a[i], a[n - 1 - i] := a[n - 1 - i], a[i];
      i := i + 1;
    }
    ghost var was := old(a[..]);
    forall k | 0 <= k < n
      ensures a[..][k] == Reversed(was)[k]
    {
      ReversedAt(was, k);
    }
  }
}
