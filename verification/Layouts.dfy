// The encodings of stored values and keys, position by position.

module Layouts {
  import opened Wrappers
  import opened Int64
  import opened Bytes
  import opened Text
  import opened Types
  import opened Keys
  import opened World
  import opened RecordCodec
  import opened BalanceCodec
  import opened Accounts
  import opened State
  import opened StateStore

  // ---------------------------------------------------------------- integers

  lemma OneByteMore(b: Bytes, k: nat)
    requires k < |b|
    ensures FromBE(b[..k + 1]) == FromBE(b[..k]) * 256 + b[k]
  {
    assert b[..k + 1][..k] == b[..k];
  }

  /** The number four bytes name, most significant first. */
  function Four(b: seq<int>): int
    requires |b| == 4
  {
    b[0] * 0x100_0000 + b[1] * 0x1_0000 + b[2] * 0x100 + b[3]
  }

  lemma FourBytes(b: Bytes, k: nat)
    requires k + 4 <= |b|
    ensures FromBE(b[..k + 4]) == FromBE(b[..k]) * 0x1_0000_0000 + Four(b[k..k + 4])
  {
    OneByteMore(b, k);
    OneByteMore(b, k + 1);
    OneByteMore(b, k + 2);
    OneByteMore(b, k + 3);
    hide FromBE;
  }

  /** A uint32 is stored most significant byte first. */
  lemma Uint32Layout(x: Uint32)
    ensures Four(Uint32ToBytes(x)) == x
  {
    WidthFacts();
    FromToBE(x, 4);
    var b := ToBE(x, 4);
    FourBytes(b, 0);
    assert b[..4] == b && b[0..4] == b && FromBE(b[..0]) == 0;
    hide ToBE, FromBE, Four;
  }

  /** An int64 is stored in two's complement, most significant byte first. */
  lemma Int64Layout(x: Int64)
    ensures Four(Int64ToBytes(x)[..4]) * 0x1_0000_0000 + Four(Int64ToBytes(x)[4..])
         == if x < 0 then x + 0x1_0000_0000_0000_0000 else x
  {
    WidthFacts();
    FromToBE(Unsigned(x), 8);
    var b := ToBE(Unsigned(x), 8);
    FourBytes(b, 0);
    FourBytes(b, 4);
    assert b[..8] == b && b[0..4] == b[..4] && b[4..8] == b[4..] && FromBE(b[..0]) == 0;
    hide ToBE, FromBE, Four;
  }

  // ---------------------------------------------------------------- records

  /** Where the four numbers of the supply record are. */
  lemma SupplyLayout(s: SystemSupply)
    ensures BytesToInt64(SupplyBytes(s)[0..8]) == s.activeSupply
    ensures BytesToInt64(SupplyBytes(s)[8..16]) == s.userSupply
    ensures BytesToInt64(SupplyBytes(s)[16..24]) == s.feeSupply
    ensures BytesToInt64(SupplyBytes(s)[24..32]) == s.baseFeeRate
  {
    SupplyRoundTrip(s);
    SupplyAt(s, 0, 8, s.activeSupply);
    SupplyAt(s, 8, 16, s.userSupply);
    SupplyAt(s, 16, 24, s.feeSupply);
    SupplyAt(s, 24, 32, s.baseFeeRate);
  }

  lemma SupplyAt(s: SystemSupply, from: nat, to: nat, x: Int64)
    requires (from, to, x) in {(0, 8, s.activeSupply), (8, 16, s.userSupply),
                               (16, 24, s.feeSupply), (24, 32, s.baseFeeRate)}
    ensures SupplyBytes(s)[from..to] == Int64ToBytes(x)
  {
    hide Int64ToBytes;
  }

  /** Where an entry of the registry is: nine bytes, the id, then the amount. */
  lemma EntryLayout(r: UtxoRegistry, i: nat)
    requires i < |r|
    ensures |RegistryBytes(r)| == 9 * |r|
    ensures RegistryBytes(r)[9 * i] == r[i].id
    ensures BytesToInt64(RegistryBytes(r)[9 * i + 1..9 * i + 9]) == r[i].amount
  {
    RegistryEntryBytes(r, i);
    hide RegistryBytes, Int64ToBytes, BytesToInt64;
    var slice := RegistryBytes(r)[9 * i..9 * i + 9];
    assert slice[0] == RegistryBytes(r)[9 * i] && slice[1..] == RegistryBytes(r)[9 * i + 1..9 * i + 9];
    Int64RoundTrip(r[i].amount);
  }

  /** Where the fields of a coin's record are. */
  lemma UtxoLayout(u: Utxo)
    requires u.Storable()
    ensures var b, n := UtxoBytes(u), |u.pkScript|;
      && |b| == 46 + n + |u.TagBytes()|
      && EncodeHex(b[0..32]) == u.txId
      && BytesToUint32(b[32..36]) == u.vout
      && BytesToInt64(b[36..44]) == u.amount
      && b[44] == n && b[45..45 + n] == u.pkScript
      && b[45 + n] == |u.TagBytes()| && b[46 + n..] == u.TagBytes()
  {
    var b := UtxoBytes(u);
    hide UtxoHead, BytesToInt64, BytesToUint32, EncodeHex;
    assert b[..45] == UtxoHead(u);
    UtxoHeadFields(u, b);
    assert TxIdOfBytes(b[0..32]) == EncodeHex(b[0..32]);
  }

  /** Where an id of the pending list is. */
  lemma PendingLayout(ts: TxSpendsRegistry, i: nat)
    requires i < |ts|
    ensures |TxSpendsBytes(ts)| == 32 * |ts| && EncodeHex(TxSpendsBytes(ts)[32 * i..32 * i + 32]) == ts[i]
  {
    TxSpendsEntryBytes(ts, i);
    TxIdRoundTrip(ts[i]);
    hide TxSpendsBytes, TxIdBytes;
  }

  // ---------------------------------------------------------------- hexadecimal

  /** Two digits a byte, high half first. */
  lemma {:induction false} HexLayout(bs: Bytes, i: nat)
    requires i < |bs|
    ensures EncodeHex(bs)[2 * i] == "0123456789abcdef"[bs[i] / 16]
    ensures EncodeHex(bs)[2 * i + 1] == "0123456789abcdef"[bs[i] % 16]
  {
    if i == 0 {
      HexDigit(bs[0] / 16);
      HexDigit(bs[0] % 16);
      hide DigitChar;
    } else {
      hide DigitChar;
      HexLayout(bs[1..], i - 1);
      assert EncodeHex(bs)[2 * i] == EncodeHex(bs[1..])[2 * (i - 1)];
      assert EncodeHex(bs)[2 * i + 1] == EncodeHex(bs[1..])[2 * (i - 1) + 1];
    }
  }

  lemma HexDigit(d: nat)
    requires d < 16
    ensures DigitChar(d) == "0123456789abcdef"[d]
  {
  }

  /** The character is the digit of value d, in either case. */
  ghost predicate IsDigit(c: char, d: nat) {
    d < 16 && (c == "0123456789abcdef"[d] || c == "0123456789ABCDEF"[d])
  }

  lemma DigitMeaning(c: char, d: nat)
    ensures IsDigit(c, d) <==> DigitValue(c) == Some(d)
  {
    if DigitValue(c) == Some(d) {
      HexDigit(d);
      if 'A' <= c <= 'F' {
        assert c == "0123456789ABCDEF"[c as int - 'A' as int + 10];
      }
    }
  }

  ghost predicate HexPair(s: string, i: nat, b: Byte)
    requires 2 * i + 1 < |s|
  {
    IsDigit(s[2 * i], b / 16) && IsDigit(s[2 * i + 1], b % 16)
  }

  ghost predicate HexPairs(s: string, bs: Bytes) {
    |s| == 2 * |bs| && forall i :: 0 <= i < |bs| ==> HexPair(s, i, bs[i])
  }

  lemma FirstHexPair(s: string, bs: Bytes)
    requires |s| >= 2 && bs != []
    ensures HexPairs(s, bs) <==> HexPair(s, 0, bs[0]) && HexPairs(s[2..], bs[1..])
  {
    if HexPairs(s, bs) {
      forall i | 0 <= i < |bs| - 1 ensures HexPair(s[2..], i, bs[1..][i]) {
        assert HexPair(s, i + 1, bs[i + 1]);
      }
    }
    if HexPair(s, 0, bs[0]) && HexPairs(s[2..], bs[1..]) {
      forall i | 0 <= i < |bs| ensures HexPair(s, i, bs[i]) {
        if i > 0 {
          assert HexPair(s[2..], i - 1, bs[1..][i - 1]);
        }
      }
    }
  }

  lemma FirstDecoded(s: string, bs: Bytes)
    requires |s| >= 2 && bs != []
    ensures DecodeHex(s) == Some(bs) <==> HexPair(s, 0, bs[0]) && DecodeHex(s[2..]) == Some(bs[1..])
  {
    hide IsDigit, DigitValue, DecodeHex;
    DigitMeaning(s[0], bs[0] / 16);
    DigitMeaning(s[1], bs[0] % 16);
    DecodeFront(s, bs);
  }

  lemma DecodeFront(s: string, bs: Bytes)
    requires |s| >= 2 && bs != []
    ensures DecodeHex(s) == Some(bs) <==>
      && DigitValue(s[0]) == Some(bs[0] / 16) && DigitValue(s[1]) == Some(bs[0] % 16)
      && DecodeHex(s[2..]) == Some(bs[1..])
  {
    hide DigitValue;
    assert bs == [bs[0]] + bs[1..];
    var hi, lo, rest := DigitValue(s[0]), DigitValue(s[1]), DecodeHex(s[2..]);
    if hi.Some? && lo.Some? && rest.Some? {
      var all: Bytes := [hi.value * 16 + lo.value] + rest.value;
      assert DecodeHex(s) == Some(all) && all[1..] == rest.value && all[0] == hi.value * 16 + lo.value;
    }
  }

  /** Decoding yields bs exactly when the text is bs's digits, pair by pair and in either case. */
  lemma {:induction false} DecodeHexExact(s: string, bs: Bytes)
    ensures DecodeHex(s) == Some(bs) <==> HexPairs(s, bs)
    decreases |s|
  {
    if |s| >= 2 && bs != [] {
      FirstHexPair(s, bs);
      FirstDecoded(s, bs);
      DecodeHexExact(s[2..], bs[1..]);
      hide HexPairs, HexPair, DecodeHex;
    }
  }

  /** A transaction id is its hash read backwards. */
  lemma DisplayLayout(h: Hash, i: nat)
    requires i < 32
    ensures DisplayHex(h)[2 * i] == "0123456789abcdef"[h[31 - i] / 16]
    ensures DisplayHex(h)[2 * i + 1] == "0123456789abcdef"[h[31 - i] % 16]
  {
    var r: Bytes := seq(32, j requires 0 <= j < 32 => h[31 - j]);
    assert DisplayHex(h) == EncodeHex(r);
    HexLayout(r, i);
    hide EncodeHex;
  }

  // ---------------------------------------------------------------- decimal numbers

  /** A digit n places from the end. */
  function Place(d: nat, base: nat, n: nat): nat {
    if n == 0 then d else base * Place(d, base, n - 1)
  }

  predicate Decimal(s: string) {
    forall i :: 0 <= i < |s| ==> '0' <= s[i] <= '9'
  }

  function Digit(c: char): nat {
    if DigitValue(c).Some? then DigitValue(c).value else 0
  }

  /** The number a text of digits names, leading digit first. */
  function Value(s: string, base: nat): nat {
    if s == [] then 0 else Place(Digit(s[0]), base, |s| - 1) + Value(s[1..], base)
  }

  lemma {:induction false} ValueAppend(s: string, c: char, base: nat)
    requires base == 10 || base == 16
    ensures Value(s + [c], base) == base * Value(s, base) + Digit(c)
  {
    hide Digit;
    if s == [] {
      assert s + [c] == [c] && [c][1..] == [];
      assert Value([c], base) == Place(Digit(c), base, 0) + Value([c][1..], base);
    } else {
      ValueAppend(s[1..], c, base);
      assert (s + [c])[0] == s[0] && (s + [c])[1..] == s[1..] + [c];
    }
  }

  lemma {:induction false} ParseDigitsExact(s: string)
    ensures ParseDigits(s) == if Decimal(s) then Some(Value(s, 10)) else None
  {
    if s != [] {
      var front, c := s[..|s| - 1], s[|s| - 1];
      ParseDigitsExact(front);
      assert s == front + [c];
      ValueAppend(front, c, 10);
      assert Decimal(s) <==> Decimal(front) && '0' <= c <= '9';
      hide Decimal, Value;
    }
  }

  /** strconv.ParseInt in base 10: an optional sign and at least one decimal digit, the value in range. */
  lemma ParseInt64Exact(s: string)
    ensures var digits := if s != "" && s[0] in "+-" then s[1..] else s;
      var v := if s != "" && s[0] == '-' then 0 - Value(digits, 10) else Value(digits, 10);
      ParseInt64(s) == if digits != "" && Decimal(digits) && InInt64(v) then Some(v) else None
  {
    var digits := if s != "" && s[0] in "+-" then s[1..] else s;
    ParseDigitsExact(digits);
    hide Decimal, ParseDigits, Value;
  }

  /** strconv.FormatUint: the text names the number, in lower-case digits of the base, without leading zeros. */
  lemma {:induction false} FormatUintExact(n: nat, base: nat)
    requires base == 10 || base == 16
    ensures var s := FormatUint(n, base);
      && (forall i :: 0 <= i < |s| ==> DigitValue(s[i]).Some? && DigitValue(s[i]).value < base)
      && Value(s, base) == n
      && (n > 0 ==> s[0] != '0') && (n == 0 ==> s == "0")
    decreases n
  {
    var s := FormatUint(n, base);
    var rest := if base == 10 then n / 10 else n / 16;
    var d := n - base * rest;
    assert DigitValue(DigitChar(d)) == Some(d);
    if rest == 0 {
      assert s == [] + [DigitChar(d)];
      ValueAppend([], DigitChar(d), base);
    } else {
      var front := FormatUint(rest, base);
      FormatUintExact(rest, base);
      assert s == front + [DigitChar(d)];
      ValueAppend(front, DigitChar(d), base);
      hide DigitValue, DigitChar, Value;
      forall i | 0 <= i < |s| ensures DigitValue(s[i]).Some? && DigitValue(s[i]).value < base {
        if i < |front| {
          assert s[i] == front[i];
        }
      }
    }
  }

  // ---------------------------------------------------------------- keys

  /** The string under which each kind of value is stored. */
  lemma KeyTexts(account: string, o: Outpoint, id: Byte, txId: TxId, height: Uint32)
    ensures Render(BalanceKey(account)) == "a-" + account
    ensures Render(ObservedKey(o)) == "o-" + o.txId + ":" + FormatUint(o.vout, 10)
    ensures Render(UtxoKey(id)) == "u-" + FormatUint(id, 16)
    ensures Render(TxSpendKey(txId)) == "d-" + txId
    ensures Render(BlockKey(height)) == "b-" + FormatUint(height, 10)
    ensures FormatUint(800000, 10) == "800000" && FormatUint(255, 16) == "ff"
  {
    FormatExamples();
    hide FormatUint;
  }

  lemma FormatExamples()
    ensures FormatUint(800000, 10) == "800000" && FormatUint(255, 16) == "ff"
  {
    assert FormatUint(8, 10) == "8";
    assert FormatUint(80, 10) == FormatUint(8, 10) + "0";
    assert FormatUint(800, 10) == FormatUint(80, 10) + "0";
    assert FormatUint(8000, 10) == FormatUint(800, 10) + "0";
    assert FormatUint(80000, 10) == FormatUint(8000, 10) + "0";
    assert FormatUint(800000, 10) == FormatUint(80000, 10) + "0";
    assert FormatUint(15, 16) == "f";
    assert FormatUint(255, 16) == FormatUint(15, 16) + "f";
  }

  // ---------------------------------------------------------------- the store

  /** What the store holds under a string; absent reads as empty. */
  function At(data: map<string, Bytes>, key: string): Bytes {
    if key in data then data[key] else []
  }

  /** The store as its bytes: whatever state it represents, balances are minimal big-endian numbers under
      "a-", an observed outpoint is a "1" under its id and number, headers are kept raw under their decimal
      height, coins under their hexadecimal id, and the two counters are the bytes under "i". */
  lemma StoreTexts(data: map<string, Bytes>, v: State, account: string, o: Outpoint, id: Byte, height: Uint32)
    requires Represents(data, v)
    ensures FromBE(At(data, "a-" + account)) == Unsigned(GetBal(v.balances, account))
    ensures At(data, "o-" + o.txId + ":" + FormatUint(o.vout, 10)) == if o in v.observed then Ascii("1") else []
    ensures At(data, "u-" + FormatUint(id, 16)) == if id in v.utxos then UtxoBytes(v.utxos[id]) else []
    ensures At(data, "b-" + FormatUint(height, 10)) == if height in v.headers then v.headers[height] else []
    ensures At(data, "routerid") == v.router
    ensures |At(data, "i")| == 2 ==> At(data, "i") == [v.confirmedNextId, v.unconfirmedNextId]
    ensures At(data, "i") == [] ==> v.confirmedNextId == 64 && v.unconfirmedNextId == 0
    ensures |At(data, "r")| == 9 * |v.utxoList| && |At(data, "p")| == 32 * |v.txSpendsList|
    ensures At(data, "s") == [] ==> v.supply == SystemSupply(0, 0, 0, 0)
    ensures At(data, "h") == [] <==> v.lastHeight == None
  {
    hide FormatUint, UtxoBytes, Compact, FromBE, SupplyOfBytes, ParseUint32;
    CompactValue(GetBal(v.balances, account));
    StoredAt(data, v, BalanceKey(account));
    StoredAt(data, v, ObservedKey(o));
    StoredAt(data, v, UtxoKey(id));
    StoredAt(data, v, BlockKey(height));
    StoredAt(data, v, RouterContractIdKey);
    StoredAt(data, v, UtxoLastIdKey);
    StoredAt(data, v, UtxoRegistryKey);
    StoredAt(data, v, TxSpendsRegistryKey);
    StoredAt(data, v, SupplyKey);
    StoredAt(data, v, LastHeightKey);
    hide Represents;
  }

  lemma StoredAt(data: map<string, Bytes>, v: State, k: Key)
    requires Represents(data, v)
    ensures Holds(v, k, At(data, Render(k)))
  {
    hide Holds, Render;
    assert Holds(v, k, Fetch(data, k));
  }

  /** A transaction's id: the double hash of its serialisation, backwards, in lower-case hex. */
  lemma TxIdLayout(w: Btc, tx: MsgTx, i: nat)
    requires i < 32
    ensures TxID(w, tx)[2 * i] == "0123456789abcdef"[w.doubleHash(w.serialize(tx))[31 - i] / 16]
    ensures TxID(w, tx)[2 * i + 1] == "0123456789abcdef"[w.doubleHash(w.serialize(tx))[31 - i] % 16]
  {
    DisplayLayout(w.doubleHash(w.serialize(tx)), i);
    hide DisplayHex;
  }
}
