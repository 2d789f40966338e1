/** Machine words, their big-endian bytes, and the integer conversions the
    repository applies at its SQLite boundary. */
module Words {
  const U16_MAX: int := 0xFFFF
  const U32_MAX: int := 0xFFFF_FFFF
  const U64_MAX: int := 0xFFFF_FFFF_FFFF_FFFF
  const I64_MAX: int := 0x7FFF_FFFF_FFFF_FFFF
  const TWO_TO_64: int := 0x1_0000_0000_0000_0000

  type byte = b: int | 0 <= b < 256
  type u16 = n: int | 0 <= n <= U16_MAX
  type u32 = n: int | 0 <= n <= U32_MAX
  type u64 = n: int | 0 <= n <= U64_MAX
  type i64 = n: int | -I64_MAX - 1 <= n <= I64_MAX

  /** An in-memory buffer: no `Vec<u8>` is longer than `isize::MAX`. */
  type Bytes = s: seq<byte> | |s| <= I64_MAX

  /** A 32-byte content digest. */
  type Digest = s: seq<byte> | |s| == 32 witness seq(32, _ => 0)

  const ZERO_DIGEST: Digest :=
    [0, 0, 0, 0, 0, 0, 0, 0, 0, 0, 0, 0, 0, 0, 0, 0, 0, 0, 0, 0, 0, 0, 0, 0, 0, 0, 0, 0, 0, 0, 0, 0]

  /** `saturating_add(1)` */
  function SaturatingSucc(n: u64): u64 {
    if n == U64_MAX then n else n + 1
  }

  /** `n as i64`: two's complement reinterpretation. */
  function AsI64(n: u64): i64 {
    if n <= I64_MAX then n else n - TWO_TO_64
  }

  /** `n as u64` */
  function AsU64(n: i64): u64 {
    if n >= 0 then n else n + TWO_TO_64
  }

  ghost function Pow256(width: nat): nat {
    if width == 0 then 1 else 256 * Pow256(width - 1)
  }

  lemma WordSizes()
    ensures Pow256(2) == U16_MAX + 1
    ensures Pow256(4) == U32_MAX + 1
    ensures Pow256(8) == U64_MAX + 1
  {
    assert Pow256(2) == 256 * Pow256(1);
    assert Pow256(4) == 256 * Pow256(3) == 65536 * Pow256(2);
    assert Pow256(6) == 256 * Pow256(5) == 65536 * Pow256(4);
    assert Pow256(8) == 256 * Pow256(7) == 65536 * Pow256(6);
  }

  /** `to_be_bytes`, at any width. */
  function ToBytes(value: nat, width: nat): (r: seq<byte>)
    ensures |r| == width
  {
    if width == 0 then [] else ToBytes(value / 256, width - 1) + [value % 256]
  }

  /** `from_be_bytes`, at any width. */
  function FromBytes(bytes: seq<byte>): (r: nat)
    ensures r < Pow256(|bytes|)
  {
    if bytes == [] then 0 else
      var n := |bytes| - 1;
      FromBytes(bytes[..n]) * 256 + bytes[n]
  }

  lemma {:induction false} FromBytesToBytes(value: nat, width: nat)
    requires value < Pow256(width)
    ensures FromBytes(ToBytes(value, width)) == value
  {
    if width > 0 {
      FromBytesToBytes(value / 256, width - 1);
      var bytes := ToBytes(value, width);
      assert bytes[..width - 1] == ToBytes(value / 256, width - 1);
    }
  }

  lemma {:induction false} ToBytesFromBytes(bytes: seq<byte>)
    ensures ToBytes(FromBytes(bytes), |bytes|) == bytes
  {
    if bytes != [] {
      var n := |bytes| - 1;
      ToBytesFromBytes(bytes[..n]);
      assert bytes == bytes[..n] + [bytes[n]];
    }
  }
}
