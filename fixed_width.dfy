/**
 * Fixed-width machine integers as the C code uses them: byte-sized and
 * 16/32-bit fields, the truncating `(UINT32)` cast, and the big-endian
 * 64-bit cell encoding that `cpu_to_fdt64` produces for device-tree
 * properties.
 */
module FixedWidth {

  newtype Byte = x: int | 0 <= x < 0x100
  newtype U16 = x: int | 0 <= x < 0x1_0000
  newtype U32 = x: int | 0 <= x < 0x1_0000_0000

  const Two32: nat := 0x1_0000_0000
  const Two64: nat := 0x1_0000_0000_0000_0000

  /** `n` zero bytes. */
  function Zeros(n: nat): (r: seq<Byte>)
    ensures |r| == n && forall i :: 0 <= i < n ==> r[i] == 0
  {
    seq(n, _ => 0)
  }

  /**
   * The C cast `(UINT32)x`: the one 32-bit value congruent to `x` modulo
   * 2^32. It loses nothing exactly when `x` already fits in 32 bits.
   */
  function Truncate32(x: nat): (r: U32)
    ensures (x - r as int) % Two32 == 0
    ensures r as int <= x
    ensures r as int == x <==> x < Two32
  {
    (x % Two32) as U32
  }

  /** 256 to the power `n`: one more than the largest `n`-byte value. */
  function Pow256(n: nat): (r: nat)
    ensures r >= 1
  {
    if n == 0 then 1 else 256 * Pow256(n - 1)
  }

  /** The `n`-byte big-endian encoding of `x` (high bytes beyond `n` are dropped). */
  function BigEndian(x: nat, n: nat): (r: seq<Byte>)
    ensures |r| == n
  {
    if n == 0 then [] else BigEndian(x / 256, n - 1) + [(x % 256) as Byte]
  }

  /** The value of a big-endian byte string, most significant byte first. */
  function FromBigEndian(s: seq<Byte>): (r: nat)
    ensures r < Pow256(|s|)
  {
    if s == [] then 0
    else
      var high := FromBigEndian(s[..|s| - 1]);
      assert high * 256 + 256 <= Pow256(|s| - 1) * 256;
      high * 256 + s[|s| - 1] as nat
  }

  /** Encoding a value that fits in `n` bytes and decoding it gives the value back. */
  lemma {:induction false} BigEndianRoundTrip(x: nat, n: nat)
    requires x < Pow256(n)
    ensures FromBigEndian(BigEndian(x, n)) == x
  {
    if n > 0 {
      var s := BigEndian(x, n);
      var high := x / 256;
      HighBytesFit(x, Pow256(n - 1));
      BigEndianRoundTrip(high, n - 1);
      assert s[..n - 1] == BigEndian(high, n - 1);
      assert FromBigEndian(s) == FromBigEndian(s[..n - 1]) * 256 + x % 256;
    }
  }

  /** Dropping the low byte of a value below 256 * p leaves a value below p. */
  lemma HighBytesFit(x: nat, p: nat)
    requires x < 256 * p
    ensures x / 256 < p
  {
  }

  /** Decoding a byte string and re-encoding it at the same width gives the bytes back. */
  lemma {:induction false} FromBigEndianRoundTrip(s: seq<Byte>)
    ensures BigEndian(FromBigEndian(s), |s|) == s
  {
    if s != [] {
      var init := s[..|s| - 1];
      var v := FromBigEndian(s);
      var high := FromBigEndian(init);
      assert v == high * 256 + s[|s| - 1] as nat;
      assert v / 256 == high && v % 256 == s[|s| - 1] as nat;
      FromBigEndianRoundTrip(init);
      assert s == init + [s[|s| - 1]];
    }
  }

  /** 2^64 is the range of eight bytes. */
  lemma EightBytesSpanTwo64()
    ensures Pow256(8) == Two64
  {
  }

  /**
   * `cpu_to_fdt64` as stored by `fdt_setprop`: the eight big-endian bytes of
   * `x` reduced to 64 bits; they decode to that 64-bit value.
   */
  function Fdt64(x: nat): (r: seq<Byte>)
    ensures |r| == 8
    ensures FromBigEndian(r) == x % Two64
  {
    EightBytesSpanTwo64();
    BigEndianRoundTrip(x % Two64, 8);
    BigEndian(x % Two64, 8)
  }

  /** Two 64-bit cells are equal exactly when the values agree modulo 2^64. */
  lemma Fdt64Injective(x: nat, y: nat)
    ensures Fdt64(x) == Fdt64(y) <==> x % Two64 == y % Two64
  {
    if x % Two64 == y % Two64 {
      assert Fdt64(x) == BigEndian(x % Two64, 8) == BigEndian(y % Two64, 8) == Fdt64(y);
    }
  }
}
