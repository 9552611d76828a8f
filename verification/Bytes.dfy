/** Byte strings and the big-endian integers the executor keeps on its stack. */
module Bytes {

  type byte = x: int | 0 <= x < 256

  type Bytes = seq<byte>

  const U64_LIMIT: int := 0x1_0000_0000_0000_0000

  type u64 = x: int | 0 <= x < U64_LIMIT

  function Pow256(n: nat): (p: nat)
    ensures p > 0
  {
    if n == 0 then 1 else 256 * Pow256(n - 1)
  }

  /** The `n` low-order bytes of `x`, most significant first. */
  function ToBigEndian(x: nat, n: nat): (r: Bytes)
    ensures |r| == n
    decreases n
  {
    if n == 0 then [] else ToBigEndian(x / 256, n - 1) + [x % 256]
  }

  function FromBigEndian(b: Bytes): (r: nat)
    ensures r < Pow256(|b|)
  {
    if b == [] then 0
    else 256 * FromBigEndian(b[..|b| - 1]) + b[|b| - 1]
  }

  lemma {:induction false} DecodeSnoc(high: Bytes, low: byte)
    ensures FromBigEndian(high + [low]) == 256 * FromBigEndian(high) + low
  {
    var b := high + [low];
    assert b[..|b| - 1] == high && b[|b| - 1] == low;
  }

  lemma {:induction false} DecodeEncode(x: nat, n: nat)
    requires x < Pow256(n)
    ensures FromBigEndian(ToBigEndian(x, n)) == x
  {
    if n > 0 {
      var q, r := x / 256, x % 256;
      assert x == 256 * q + r && q < Pow256(n - 1);
      DecodeEncode(q, n - 1);
      DecodeSnoc(ToBigEndian(q, n - 1), r);
    }
  }

  lemma {:induction false} EncodeDecode(b: Bytes)
    ensures ToBigEndian(FromBigEndian(b), |b|) == b
  {
    if b != [] {
      EncodeDecode(b[..|b| - 1]);
      var v := FromBigEndian(b[..|b| - 1]);
      assert (256 * v + b[|b| - 1]) / 256 == v;
    }
  }

  lemma {:induction false} Pow256Eight()
    ensures Pow256(8) == U64_LIMIT
  {
    assert Pow256(2) == 65536;
    assert Pow256(4) == 65536 * Pow256(2);
    assert Pow256(6) == 65536 * Pow256(4);
    assert Pow256(8) == 65536 * Pow256(6);
  }

  /** `u64::to_be_bytes`: the low-order eight bytes. */
  function EncodeU64(x: nat): (r: Bytes)
    ensures |r| == 8
  {
    ToBigEndian(x, 8)
  }

  /** `u64::from_be_bytes` on a slice already checked to hold eight bytes. */
  function DecodeU64(b: Bytes): u64
    requires |b| == 8
  {
    Pow256Eight();
    FromBigEndian(b)
  }

  /** The eight-byte codec is a bijection. */
  lemma {:induction false} U64RoundTrip(x: u64, b: Bytes)
    requires |b| == 8
    ensures DecodeU64(EncodeU64(x)) == x
    ensures EncodeU64(DecodeU64(b)) == b
  {
    Pow256Eight();
    DecodeEncode(x, 8);
    EncodeDecode(b);
  }
}
