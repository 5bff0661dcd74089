/**
 * Bytes and the fixed-width little-endian integer encoding used in the offer
 * address seeds (bn.js `toArrayLike(Buffer, "le", width)`).
 */
module Bytes {

  newtype Byte = b: int | 0 <= b < 256

  /** 256 to the power `k`: the number of distinct values `k` bytes can hold. */
  function Pow256(k: nat): (r: nat)
    ensures r >= 1
  {
    if k == 0 then 1 else 256 * Pow256(k - 1)
  }

  /** 2^64: the exclusive upper bound of an unsigned 64-bit integer. */
  const TwoTo64: nat := 0x1_0000_0000_0000_0000

  lemma Pow256Of8()
    ensures Pow256(8) == TwoTo64
  {
  }

  /**
   * The `width` bytes of `n`, least significant byte first. bn.js throws
   * when `n` needs more than `width` bytes; callers check that first.
   */
  function LittleEndian(n: nat, width: nat): (r: seq<Byte>)
    requires n < Pow256(width)
    ensures |r| == width
    decreases width
  {
    if width == 0 then []
    else
      assert n / 256 < Pow256(width - 1);
      [(n % 256) as Byte] + LittleEndian(n / 256, width - 1)
  }

  /** The number a little-endian byte string denotes. */
  function FromLittleEndian(bs: seq<Byte>): (n: nat)
    ensures n < Pow256(|bs|)
  {
    if bs == [] then 0 else bs[0] as nat + 256 * FromLittleEndian(bs[1..])
  }

  /** Decoding the encoding of `n` gives back `n`. */
  lemma {:induction false} LittleEndianRoundTrip(n: nat, width: nat)
    requires n < Pow256(width)
    ensures FromLittleEndian(LittleEndian(n, width)) == n
    decreases width
  {
    if width > 0 {
      var r := LittleEndian(n, width);
      LittleEndianRoundTrip(n / 256, width - 1);
      assert r[1..] == LittleEndian(n / 256, width - 1);
    }
  }

  /** Every byte string of length `width` is the encoding of the number it denotes. */
  lemma {:induction false} FromLittleEndianRoundTrip(bs: seq<Byte>)
    ensures LittleEndian(FromLittleEndian(bs), |bs|) == bs
  {
    if bs != [] {
      FromLittleEndianRoundTrip(bs[1..]);
      var n := FromLittleEndian(bs);
      assert n % 256 == bs[0] as nat;
      assert n / 256 == FromLittleEndian(bs[1..]);
    }
  }

  /** Distinct numbers in range have distinct encodings of the same width. */
  lemma LittleEndianInjective(m: nat, n: nat, width: nat)
    requires m < Pow256(width) && n < Pow256(width)
    requires LittleEndian(m, width) == LittleEndian(n, width)
    ensures m == n
  {
    LittleEndianRoundTrip(m, width);
    LittleEndianRoundTrip(n, width);
  }

  /**
   * The bytes of a string of ASCII characters; UTF-8 (Node's `Buffer.from`)
   * encodes each such character as the one byte of its code point.
   */
  function AsciiBytes(s: string): (r: seq<Byte>)
    requires forall i :: 0 <= i < |s| ==> s[i] as int < 128
    ensures |r| == |s|
    ensures forall i :: 0 <= i < |s| ==> r[i] as int == s[i] as int
  {
    if s == [] then [] else [s[0] as int as Byte] + AsciiBytes(s[1..])
  }
}
