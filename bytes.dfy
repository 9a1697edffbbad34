/**
 * Byte-level vocabulary shared by every item kind: the five-byte item storage,
 * an optional value, and the little-endian reading of a byte string.
 */
module Bytes {

  datatype Option<+T> = None | Some(value: T)

  /** The `[u8; 5]` buffer every item owns: one prefix byte and up to four data bytes. */
  type Storage = s: seq<bv8> | |s| == 5 witness [0, 0, 0, 0, 0]

  /** Unsigned little-endian value of a byte string (least significant byte first). */
  function LittleEndian(s: seq<bv8>): nat
  {
    if s == [] then 0 else s[0] as nat + 256 * LittleEndian(s[1..])
  }

  /** 2^(8n): one more than the largest unsigned value that fits in n bytes. */
  function Radix(n: nat): (r: nat)
    ensures r >= 1
  {
    if n == 0 then 1 else 256 * Radix(n - 1)
  }

  /** An n-byte little-endian value fits in n bytes. */
  lemma {:induction false} LittleEndianBound(s: seq<bv8>)
    ensures LittleEndian(s) < Radix(|s|)
  {
    if s != [] {
      LittleEndianBound(s[1..]);
      assert s[0] as nat < 256;
    }
  }

  /** Little-endian value of a sequence of exactly two or four bytes, written out. */
  lemma LittleEndianShort(s: seq<bv8>)
    ensures |s| == 1 ==> LittleEndian(s) == s[0] as nat
    ensures |s| == 2 ==> LittleEndian(s) == s[0] as nat + 0x100 * s[1] as nat
    ensures |s| == 4 ==> LittleEndian(s) == s[0] as nat + 0x100 * s[1] as nat
                                            + 0x1_0000 * s[2] as nat + 0x100_0000 * s[3] as nat
  {
    if |s| >= 2 {
      assert s[1..][1..] == s[2..];
      if |s| == 4 {
        assert s[2..][1..] == s[3..];
        assert s[3..][1..] == [];
      }
    }
  }
}
