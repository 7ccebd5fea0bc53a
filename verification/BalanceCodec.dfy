// The compact account-balance encoding of getAccBal / setAccBal (utils.go):
// big-endian without leading zero bytes, zero stored as absence.

module BalanceCodec {
  import opened Int64
  import opened Bytes

  /** bits.Len64. */
  function BitLen(v: nat): nat {
    if v == 0 then 0 else 1 + BitLen(v / 2)
  }

  /** The string setAccBal stores for a balance; empty means the key is deleted. */
  function Compact(x: Int64): (bs: Bytes)
  {
    var v := Unsigned(x);
    BitLenBytes(v);
    var n := (BitLen(v) + 7) / 8;
    ToBE(v, 8)[8 - n..]
  }

  /** What getAccBal makes of a stored string: right-aligned into eight bytes. */
  function ReadCompact(bs: Bytes): (x: Int64)
    requires |bs| <= 8
  {
    BytesToInt64(seq(8 - |bs|, i => 0) + bs)
  }

  /** Eight halvings are one byte. */
  lemma BitLenStep(v: nat)
    requires v >= 256
    ensures BitLen(v) == 8 + BitLen(v / 256)
  {
    var a := v / 2;
    var b := a / 2;
    var c := b / 2;
    var d := c / 2;
    var e := d / 2;
    var f := e / 2;
    var g := f / 2;
    var h := g / 2;
    assert h == v / 256;
    assert BitLen(g) == 1 + BitLen(h);
    assert BitLen(f) == 1 + BitLen(g);
    assert BitLen(e) == 1 + BitLen(f);
    assert BitLen(d) == 1 + BitLen(e);
    assert BitLen(c) == 1 + BitLen(d);
    assert BitLen(b) == 1 + BitLen(c);
    assert BitLen(a) == 1 + BitLen(b);
  }

  lemma BitLenSmall(v: nat)
    requires 0 < v < 256
    ensures 1 <= BitLen(v) <= 8
  {
    var a := v / 2;
    var b := a / 2;
    var c := b / 2;
    var d := c / 2;
    assert d < 16;
    var e := d / 2;
    var f := e / 2;
    var g := f / 2;
    assert g / 2 == 0;
    assert BitLen(g) <= 1;
    assert BitLen(f) <= 1 + BitLen(g);
    assert BitLen(e) <= 1 + BitLen(f);
    assert BitLen(d) <= 1 + BitLen(e);
    assert BitLen(c) <= 1 + BitLen(d);
    assert BitLen(b) <= 1 + BitLen(c);
    assert BitLen(a) <= 1 + BitLen(b);
  }

  /** (bits.Len64(v) + 7) / 8 is the least number of bytes that hold v. */
  lemma {:induction false} ByteLength(v: nat, n: nat)
    requires n == (BitLen(v) + 7) / 8
    ensures v < Pow256(n)
    ensures v == 0 ==> n == 0
    ensures v > 0 ==> n > 0 && Pow256(n - 1) <= v
    decreases v
  {
    if v >= 256 {
      BitLenStep(v);
      ByteLength(v / 256, n - 1);
      assert Pow256(n) == 256 * Pow256(n - 1);
      assert Pow256(n - 1) == 256 * Pow256(n - 2);
    } else if v > 0 {
      BitLenSmall(v);
      assert n == 1 && Pow256(1) == 256 * Pow256(0);
    }
  }

  lemma {:induction false} Pow256Monotone(m: nat, n: nat)
    requires m <= n
    ensures Pow256(m) <= Pow256(n)
    decreases n - m
  {
    if m < n {
      Pow256Monotone(m + 1, n);
      assert Pow256(m + 1) == 256 * Pow256(m);
    }
  }

  lemma BitLenBytes(v: nat)
    requires v < TWO64
    ensures (BitLen(v) + 7) / 8 <= 8
  {
    var n := (BitLen(v) + 7) / 8;
    ByteLength(v, n);
    WidthFacts();
    if n > 8 {
      Pow256Monotone(8, n - 1);
    }
  }

  lemma {:induction false} LowBytes(v: nat, w: nat, n: nat)
    requires n <= w
    ensures ToBE(v, w)[w - n..] == ToBE(v, n)
  {
    if n > 0 {
      LowBytes(v / 256, w - 1, n - 1);
      assert ToBE(v, w)[w - n..] == ToBE(v / 256, w - 1)[w - n..] + [v % 256];
    }
  }

  /** Reading a balance just written returns it, for every int64. */
  lemma CompactRoundTrip(x: Int64)
    ensures |Compact(x)| <= 8 && ReadCompact(Compact(x)) == x
  {
    CompactValue(x);
    LeadingZeros(8 - |Compact(x)|, Compact(x));
  }

  lemma CompactValue(x: Int64)
    ensures |Compact(x)| <= 8 && FromBE(Compact(x)) == Unsigned(x)
    ensures x == 0 ==> Compact(x) == []
    ensures x != 0 ==> |Compact(x)| > 0 && Pow256(|Compact(x)| - 1) <= Unsigned(x)
  {
    hide ToBE, FromBE, Pow256, BitLen;
    var v := Unsigned(x);
    var n := (BitLen(v) + 7) / 8;
    BitLenBytes(v);
    ByteLength(v, n);
    LowBytes(v, 8, n);
    FromToBE(v, n);
  }

  /** Zero is absence; anything else takes 1 to 8 bytes, the first of them non-zero. */
  lemma CompactShape(x: Int64)
    ensures x == 0 <==> Compact(x) == []
    ensures x != 0 ==> 1 <= |Compact(x)| <= 8 && Compact(x)[0] != 0
  {
    CompactValue(x);
    hide Compact;
    var bs := Compact(x);
    if x != 0 && bs[0] == 0 {
      assert bs == seq(1, i => 0) + bs[1..];
      LeadingZeros(1, bs[1..]);
      assert false;
    }
  }

  /** A string without a leading zero byte is the only encoding of its value. */
  lemma CompactCanonical(bs: Bytes)
    requires |bs| <= 8 && (bs == [] || bs[0] != 0)
    ensures Compact(ReadCompact(bs)) == bs
  {
    var x := ReadCompact(bs);
    CanonicalValue(bs);
    CompactValue(x);
    hide Compact, ReadCompact, ToBE, FromBE;
    var m, n := |bs|, |Compact(x)|;
    assert n == m by {
      if n < m {
        Pow256Monotone(n, m - 1);
      } else if m < n {
        Pow256Monotone(m, n - 1);
      }
    }
    ToFromBE(bs);
    ToFromBE(Compact(x));
  }

  lemma CanonicalValue(bs: Bytes)
    requires |bs| <= 8 && (bs == [] || bs[0] != 0)
    ensures Unsigned(ReadCompact(bs)) == FromBE(bs)
    ensures bs != [] ==> Pow256(|bs| - 1) <= FromBE(bs)
    ensures bs == [] ==> ReadCompact(bs) == 0
  {
    LeadingZeros(8 - |bs|, bs);
    if bs != [] {
      LeadByteBound(bs);
    }
  }

  lemma {:induction false} LeadByteBound(bs: Bytes)
    requires bs != [] && bs[0] != 0
    ensures Pow256(|bs| - 1) <= FromBE(bs)
  {
    if |bs| > 1 {
      LeadByteBound(bs[..|bs| - 1]);
      assert Pow256(|bs| - 1) == 256 * Pow256(|bs| - 2);
    } else {
      assert FromBE(bs[..0]) == 0;
    }
  }
}
