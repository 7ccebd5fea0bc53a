// The strconv and encoding/hex conversions that the contract puts into state
// keys, stored values and transaction ids.

module Text {
  import opened Wrappers
  import opened Int64
  import opened Bytes

  function DigitChar(d: nat): (c: char)
    requires d < 16
    ensures '0' <= c <= '9' || 'a' <= c <= 'f'
  {
    if d < 10 then '0' + d as char else 'a' + (d - 10) as char
  }

  /** Value of one hex digit of either case, as encoding/hex reads it. */
  function DigitValue(c: char): (d: Option<nat>)
    ensures d.Some? ==> d.value < 16
  {
    if '0' <= c <= '9' then Some(c as int - '0' as int)
    else if 'a' <= c <= 'f' then Some(c as int - 'a' as int + 10)
    else if 'A' <= c <= 'F' then Some(c as int - 'A' as int + 10)
    else None
  }

  lemma DigitRoundTrip(c: char)
    requires '0' <= c <= '9' || 'a' <= c <= 'f'
    ensures DigitValue(c).Some? && DigitChar(DigitValue(c).value) == c
  {
  }

  // ------------------------------------------------------------ strconv

  /** strconv.FormatUint in base 10 or 16: no padding, "0" for zero. */
  function FormatUint(n: nat, base: nat): (s: string)
    requires base == 10 || base == 16
    ensures |s| > 0
    ensures forall c :: c in s ==> '0' <= c <= '9' || 'a' <= c <= 'f'
    decreases n
  {
    var d := if base == 10 then n % 10 else n % 16;
    var rest := if base == 10 then n / 10 else n / 16;
    if rest == 0 then [DigitChar(d)] else FormatUint(rest, base) + [DigitChar(d)]
  }

  lemma {:induction false} FormatUintInjective(m: nat, n: nat, base: nat)
    requires base == 10 || base == 16
    requires FormatUint(m, base) == FormatUint(n, base)
    ensures m == n
    decreases m
  {
    var s, t := FormatUint(m, base), FormatUint(n, base);
    var m', n' := if base == 10 then m / 10 else m / 16, if base == 10 then n / 10 else n / 16;
    assert s[|s| - 1] == t[|t| - 1];
    if m' != 0 && n' != 0 {
      assert s[..|s| - 1] == FormatUint(m', base) && t[..|t| - 1] == FormatUint(n', base);
      FormatUintInjective(m', n', base);
    }
  }

  function ParseDigits(s: string): (n: Option<nat>)
  {
    if s == [] then Some(0) else
    var c := s[|s| - 1];
    var rest := ParseDigits(s[..|s| - 1]);
    if rest.Some? && '0' <= c <= '9' then Some(rest.value * 10 + (c as int - '0' as int)) else None
  }

  /** strconv.ParseUint(s, 10, 32). */
  function ParseUint32(s: string): (n: Option<Uint32>)
  {
    if s == [] then None else
    var n := ParseDigits(s);
    if n.Some? && n.value < 0x1_0000_0000 then Some(n.value) else None
  }

  /** strconv.ParseInt(s, 10, 64): an optional sign, digits, and the int64 range. */
  function ParseInt64(s: string): (n: Option<Int64>)
  {
    if s == [] then None else
    var digits := if s[0] == '-' || s[0] == '+' then s[1..] else s;
    if digits == [] then None else
    var n := ParseDigits(digits);
    if n.None? then None
    else if s[0] == '-' then (var v: int := 0 - n.value; if MIN64 <= v then Some(v) else None)
    else if n.value <= MAX64 then Some(n.value) else None
  }

  lemma {:induction false} ParseFormatted(n: nat)
    ensures ParseDigits(FormatUint(n, 10)) == Some(n)
    decreases n
  {
    var s := FormatUint(n, 10);
    if n / 10 != 0 {
      ParseFormatted(n / 10);
      assert s[..|s| - 1] == FormatUint(n / 10, 10);
    } else {
      assert s[..|s| - 1] == [];
    }
  }

  lemma HeightTextRoundTrip(h: Uint32)
    ensures ParseUint32(FormatUint(h, 10)) == Some(h)
  {
    ParseFormatted(h);
  }

  // ------------------------------------------------------- encoding/hex

  function EncodeHex(bs: Bytes): (s: string)
    ensures |s| == 2 * |bs|
    ensures IsLowerHex(s)
  {
    if bs == [] then [] else [DigitChar(bs[0] / 16), DigitChar(bs[0] % 16)] + EncodeHex(bs[1..])
  }

  function DecodeHex(s: string): (bs: Option<Bytes>)
    ensures bs.Some? ==> 2 * |bs.value| == |s|
  {
    if s == [] then Some([])
    else if |s| == 1 then None
    else
      var hi := DigitValue(s[0]);
      var lo := DigitValue(s[1]);
      var rest := DecodeHex(s[2..]);
      if hi.Some? && lo.Some? && rest.Some? then Some([hi.value * 16 + lo.value] + rest.value) else None
  }

  predicate IsLowerHex(s: string) {
    forall c :: c in s ==> '0' <= c <= '9' || 'a' <= c <= 'f'
  }

  lemma {:induction false} DecodeEncodedHex(bs: Bytes)
    ensures DecodeHex(EncodeHex(bs)) == Some(bs)
  {
    if bs != [] {
      DecodeEncodedHex(bs[1..]);
      assert EncodeHex(bs)[2..] == EncodeHex(bs[1..]);
      assert bs == [bs[0]] + bs[1..];
    }
  }

  lemma EncodeOneByte(hi: nat, lo: nat, rest: Bytes)
    requires hi < 16 && lo < 16
    ensures EncodeHex([hi * 16 + lo] + rest) == [DigitChar(hi), DigitChar(lo)] + EncodeHex(rest)
  {
    var bs: Bytes := [hi * 16 + lo] + rest;
    assert bs[1..] == rest && bs[0] / 16 == hi && bs[0] % 16 == lo;
  }

  lemma LowerHexTail(s: string, k: nat)
    requires k <= |s| && IsLowerHex(s)
    ensures IsLowerHex(s[k..])
  {
    assert forall c :: c in s[k..] ==> c in s;
  }

  lemma {:induction false} EncodeDecodedHex(s: string)
    requires IsLowerHex(s)
    ensures |s| % 2 == 0 <==> DecodeHex(s).Some?
    ensures DecodeHex(s).Some? ==> EncodeHex(DecodeHex(s).value) == s
  {
    if |s| >= 2 {
      assert s[0] in s && s[1] in s;
      DigitRoundTrip(s[0]);
      DigitRoundTrip(s[1]);
      LowerHexTail(s, 2);
      hide IsLowerHex, DigitValue, DigitChar;
      EncodeDecodedHex(s[2..]);
      hide EncodeHex;
      if DecodeHex(s).Some? {
        var hi, lo, rest := DigitValue(s[0]).value, DigitValue(s[1]).value, DecodeHex(s[2..]).value;
        EncodeOneByte(hi, lo, rest);
        assert s == [s[0], s[1]] + s[2..];
      }
    }
  }

  // ------------------------------------------------------ transaction ids

  /** A display-hex transaction id: 64 lower-case hex digits. */
  predicate IsTxId(s: string) {
    |s| == 64 && IsLowerHex(s)
  }

  function ZeroTxId(): TxId {
    seq(64, i => '0')
  }

  type TxId = s: string | IsTxId(s) witness seq(64, i => '0')

  type Hash = bs: Bytes | |bs| == 32 witness seq(32, i => 0)

  function TxIdBytes(t: TxId): (bs: Bytes)
    ensures |bs| == 32
  {
    EncodeDecodedHex(t);
    DecodeHex(t).value
  }

  function TxIdOfBytes(bs: Bytes): (t: TxId)
    requires |bs| == 32
  {
    EncodeHex(bs)
  }

  lemma TxIdRoundTrip(t: TxId)
    ensures TxIdOfBytes(TxIdBytes(t)) == t
  {
    EncodeDecodedHex(t);
  }

  lemma TxIdBytesRoundTrip(bs: Bytes)
    requires |bs| == 32
    ensures TxIdBytes(TxIdOfBytes(bs)) == bs
  {
    DecodeEncodedHex(bs);
  }

  /** chainhash.Hash.String: the bytes in reverse, as hex. */
  function DisplayHex(h: Hash): TxId {
    TxIdOfBytes(seq(32, i requires 0 <= i < 32 => h[31 - i]))
  }

  lemma DisplayHexInjective(g: Hash, h: Hash)
    requires DisplayHex(g) == DisplayHex(h)
    ensures g == h
  {
    var rg: Bytes := seq(32, i requires 0 <= i < 32 => g[31 - i]);
    var rh: Bytes := seq(32, i requires 0 <= i < 32 => h[31 - i]);
    TxIdBytesRoundTrip(rg);
    TxIdBytesRoundTrip(rh);
    assert rg == rh;
    forall i | 0 <= i < 32 ensures g[i] == h[i] {
      assert rg[31 - i] == g[i] && rh[31 - i] == h[i];
    }
  }

  predicate IsAscii(s: string) {
    forall i :: 0 <= i < |s| ==> s[i] as int < 128
  }

  /** The bytes of an ASCII string, as the store holds it. */
  function Ascii(s: string): (bs: Bytes)
    requires IsAscii(s)
    ensures |bs| == |s|
    ensures FromAscii(bs) == s
  {
    seq(|s|, i requires 0 <= i < |s| => var b: Byte := s[i] as int; b)
  }

  function FromAscii(bs: Bytes): (s: string)
    ensures |s| == |bs|
  {
    seq(|bs|, i requires 0 <= i < |bs| => bs[i] as char)
  }
}
