// Bytes, big-endian integers and buffer writes (encoding/binary and copy).

module Bytes {
  import opened Int64

  type Byte = b: int | 0 <= b < 256
  type Bytes = seq<Byte>

  /** 256 to the power w: the number of values that w bytes can hold. */
  function Pow256(w: nat): (p: nat)
    ensures p > 0
  {
    if w == 0 then 1 else 256 * Pow256(w - 1)
  }

  /** The low w bytes of v, most significant first. */
  function ToBE(v: nat, w: nat): (bs: Bytes)
    ensures |bs| == w
  {
    if w == 0 then [] else ToBE(v / 256, w - 1) + [v % 256]
  }

  function FromBE(bs: Bytes): (v: nat)
    ensures v < Pow256(|bs|)
  {
    if bs == [] then 0 else FromBE(bs[..|bs| - 1]) * 256 + bs[|bs| - 1]
  }

  lemma {:induction false} FromToBE(v: nat, w: nat)
    requires v < Pow256(w)
    ensures FromBE(ToBE(v, w)) == v
  {
    if w > 0 {
      FromToBE(v / 256, w - 1);
      assert ToBE(v, w)[..w - 1] == ToBE(v / 256, w - 1);
    }
  }

  lemma {:induction false} ToFromBE(bs: Bytes)
    ensures ToBE(FromBE(bs), |bs|) == bs
  {
    if bs != [] {
      ToFromBE(bs[..|bs| - 1]);
      assert bs == bs[..|bs| - 1] + [bs[|bs| - 1]];
    }
  }

  /** Leading zero bytes do not change the number. */
  lemma {:induction false} LeadingZeros(k: nat, bs: Bytes)
    ensures FromBE(seq(k, i => 0) + bs) == FromBE(bs)
  {
    var zs: Bytes := seq(k, i => 0);
    if bs != [] {
      LeadingZeros(k, bs[..|bs| - 1]);
      assert (zs + bs)[..k + |bs| - 1] == zs + bs[..|bs| - 1];
    } else if k > 0 {
      LeadingZeros(k - 1, []);
      var zs': Bytes := seq(k - 1, i => 0);
      assert (zs + bs)[..k - 1] == zs' + [];
    }
  }

  lemma WidthFacts()
    ensures Pow256(1) == 0x100 && Pow256(2) == 0x1_0000
    ensures Pow256(4) == 0x1_0000_0000 && Pow256(8) == TWO64
  {
    assert Pow256(1) == 256 * Pow256(0);
    assert Pow256(2) == 256 * Pow256(1);
    assert Pow256(3) == 256 * Pow256(2);
    assert Pow256(4) == 256 * Pow256(3);
    assert Pow256(5) == 256 * Pow256(4);
    assert Pow256(6) == 256 * Pow256(5);
    assert Pow256(7) == 256 * Pow256(6);
  }

  /** Go's conversion uint64(x). */
  function Unsigned(x: Int64): (u: nat)
    ensures u < TWO64
  {
    if x < 0 then x + TWO64 else x
  }

  /** Go's conversion int64(u). */
  function Signed(u: nat): (x: Int64)
    requires u < TWO64
    ensures Unsigned(x) == u
  {
    if u <= MAX64 then u else u - TWO64
  }

  function Int64ToBytes(x: Int64): (bs: Bytes)
    ensures |bs| == 8
  {
    ToBE(Unsigned(x), 8)
  }

  function BytesToInt64(bs: Bytes): (x: Int64)
    requires |bs| == 8
  {
    WidthFacts();
    Signed(FromBE(bs))
  }

  lemma Int64RoundTrip(x: Int64)
    ensures BytesToInt64(Int64ToBytes(x)) == x
  {
    WidthFacts();
    FromToBE(Unsigned(x), 8);
  }

  lemma BytesRoundTrip(bs: Bytes)
    requires |bs| == 8
    ensures Int64ToBytes(BytesToInt64(bs)) == bs
  {
    WidthFacts();
    ToFromBE(bs);
  }

  function Uint32ToBytes(x: Uint32): (bs: Bytes)
    ensures |bs| == 4
  {
    ToBE(x, 4)
  }

  function BytesToUint32(bs: Bytes): (x: Uint32)
    requires |bs| == 4
  {
    WidthFacts();
    FromBE(bs)
  }

  lemma Uint32RoundTrip(x: Uint32)
    ensures BytesToUint32(Uint32ToBytes(x)) == x
  {
    WidthFacts();
    FromToBE(x, 4);
  }

  lemma Uint32BytesRoundTrip(bs: Bytes)
    requires |bs| == 4
    ensures Uint32ToBytes(BytesToUint32(bs)) == bs
  {
    ToFromBE(bs);
  }

  function Join(a: Bytes, b: Bytes): Bytes {
    a + b
  }

  /** Go's copy(buf[off:], src) when src fits. */
  method CopyInto(buf: array<Byte>, off: nat, src: Bytes)
    requires off + |src| <= buf.Length
    modifies buf
    ensures buf[..] == old(buf[..off]) + src + old(buf[off + |src|..])
  {
    forall i | 0 <= i < |src| {
      buf[off + i] := src[i];
    }
  }

  /** A freshly made, zeroed buffer. */
  method MakeBuffer(n: nat) returns (buf: array<Byte>)
    ensures fresh(buf) && buf.Length == n
    ensures forall i :: 0 <= i < n ==> buf[i] == 0
  {
    buf := new Byte[n](i => 0);
  }
}
