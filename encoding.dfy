/**
 * Fixed-width integers and the 8-byte big-endian value encoding that the
 * ledger store uses for every scalar it persists (`bucket.Itob` /
 * `bucket.Btoi`), together with Go's `int64(u)` conversion of an unsigned
 * 64-bit value.
 */
module Encoding {

  type byte = x: int | 0 <= x < 0x100
  type u64 = x: int | 0 <= x < 0x1_0000_0000_0000_0000
  type i64 = x: int | -0x8000_0000_0000_0000 <= x < 0x8000_0000_0000_0000

  const TWO_63: int := 0x8000_0000_0000_0000
  const TWO_64: int := 0x1_0000_0000_0000_0000
  const MAX_U64: u64 := 0xFFFF_FFFF_FFFF_FFFF

  function Pow256(n: nat): (r: nat)
    ensures r > 0
  {
    if n == 0 then 1 else 256 * Pow256(n - 1)
  }

  lemma Pow256Eight()
    ensures Pow256(8) == TWO_64
  {
    assert Pow256(2) == 0x1_0000;
    assert Pow256(4) == 0x1_0000_0000 by { assert Pow256(4) == 256 * (256 * Pow256(2)); }
    assert Pow256(6) == 0x1_0000_0000_0000 by { assert Pow256(6) == 256 * (256 * Pow256(4)); }
    assert Pow256(8) == 256 * (256 * Pow256(6));
  }

  /** The low `width` bytes of `n`, most significant first. */
  function BytesOf(n: nat, width: nat): (r: seq<byte>)
    ensures |r| == width
  {
    if width == 0 then [] else BytesOf(n / 256, width - 1) + [n % 256]
  }

  /** The unsigned number a big-endian byte string denotes. */
  function ValueOf(s: seq<byte>): (v: nat)
  {
    if s == [] then 0 else ValueOf(s[..|s| - 1]) * 256 + s[|s| - 1]
  }

  lemma {:induction false} ValueOfBound(s: seq<byte>)
    ensures ValueOf(s) < Pow256(|s|)
  {
    if s != [] {
      var init := s[..|s| - 1];
      ValueOfBound(init);
      assert ValueOf(init) + 1 <= Pow256(|init|);
      assert (ValueOf(init) + 1) * 256 <= Pow256(|init|) * 256;
    }
  }

  lemma {:induction false} ValueOfBytesOf(n: nat, width: nat)
    requires n < Pow256(width)
    ensures ValueOf(BytesOf(n, width)) == n
  {
    if width > 0 {
      var s := BytesOf(n, width);
      assert s[..|s| - 1] == BytesOf(n / 256, width - 1);
      assert n / 256 < Pow256(width - 1);
      ValueOfBytesOf(n / 256, width - 1);
    }
  }

  lemma {:induction false} BytesOfValueOf(s: seq<byte>)
    ensures BytesOf(ValueOf(s), |s|) == s
  {
    if s != [] {
      var init := s[..|s| - 1];
      var v := ValueOf(s);
      assert v / 256 == ValueOf(init) && v % 256 == s[|s| - 1];
      BytesOfValueOf(init);
      assert s == init + [s[|s| - 1]];
    }
  }

  /** `bucket.Itob`: a 64-bit unsigned value as 8 big-endian bytes. */
  function Itob(n: u64): (r: seq<byte>)
    ensures |r| == 8
  {
    BytesOf(n, 8)
  }

  /** `bucket.Btoi`: 8 big-endian bytes read back as a 64-bit unsigned value. */
  function Btoi(s: seq<byte>): (r: u64)
    requires |s| == 8
    ensures Itob(r) == s
  {
    ValueOfBound(s);
    Pow256Eight();
    BytesOfValueOf(s);
    ValueOf(s)
  }

  /** Decoding an encoded value gives the value back. */
  lemma BtoiItob(n: u64)
    ensures Btoi(Itob(n)) == n
  {
    Pow256Eight();
    ValueOfBytesOf(n, 8);
  }

  /** Two different values never share an encoding. */
  lemma ItobInjective(a: u64, b: u64)
    ensures Itob(a) == Itob(b) <==> a == b
  {
    if Itob(a) == Itob(b) {
      BtoiItob(a);
      BtoiItob(b);
    }
  }

  /** Go's `int64(u)`: reinterprets the 64 bits as two's complement. */
  function ToInt64(u: u64): (r: i64)
    ensures u < TWO_63 ==> r == u
    ensures u >= TWO_63 ==> r < 0 && r + TWO_64 == u
  {
    if u < TWO_63 then u else u - TWO_64
  }

  /** The conversion loses nothing: distinct unsigned values stay distinct. */
  lemma ToInt64Injective(a: u64, b: u64)
    ensures ToInt64(a) == ToInt64(b) <==> a == b
  {
  }

  /**
   * The only unsigned value that converts to -1 is 2^64 - 1, so a stored head
   * sequence of 2^64 - 1 reads back as the "no block yet" sentinel.
   */
  lemma ToInt64MinusOne(u: u64)
    ensures ToInt64(u) == -1 <==> u == MAX_U64
  {
  }
}
