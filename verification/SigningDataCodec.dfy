// The generated MessagePack codec for pending spends (signing_data_gen.go).

module SigningDataCodec {
  import opened Wrappers
  import opened Bytes
  import opened Types
  import opened MessagePack

  const KEY_TX: Bytes := [0x74, 0x78]
  const KEY_UH: Bytes := [0x75, 0x68]
  const KEY_I: Bytes := [0x69]
  const KEY_HS: Bytes := [0x68, 0x73]
  const KEY_WS: Bytes := [0x77, 0x73]

  /** The sizes MessagePack's 32-bit length fields can express. */
  predicate Encodable(sd: SigningData) {
    && |sd.tx| < FOUR_GIB
    && |sd.unsignedSigHashes| < FOUR_GIB
    && forall h :: h in sd.unsignedSigHashes ==> EncodableHash(h)
  }

  predicate EncodableHash(h: UnsignedSigHash) {
    |h.sigHash| < FOUR_GIB && |h.witnessScript| < FOUR_GIB
  }

  // ---------------------------------------------------------------- writing

  datatype HashField = IndexField | SigHashField | ScriptField
  datatype TopField = Tx | UnsignedSigHashes

  /** One key/value pair of a sighash map. */
  function HashFieldBytes(h: UnsignedSigHash, f: HashField): (bs: Bytes)
  {
    match f
    case IndexField => KeyBytes(KEY_I) + UintBytes(h.index)
    case SigHashField => KeyBytes(KEY_HS) + BinBytes(h.sigHash)
    case ScriptField => KeyBytes(KEY_WS) + BinBytes(h.witnessScript)
  }

  function HashFieldsBytes(h: UnsignedSigHash, order: seq<HashField>): (bs: Bytes)
    decreases |order|
  {
    if order == [] then [] else HashFieldBytes(h, order[0]) + HashFieldsBytes(h, order[1..])
  }

  /** Each sighash as a map of three pairs, in the key order chosen for it. */
  function HashesBytes(hs: seq<UnsignedSigHash>, orders: seq<seq<HashField>>): (bs: Bytes)
    requires |hs| == |orders|
  {
    if hs == [] then []
    else [0x83] + HashFieldsBytes(hs[0], orders[0]) + HashesBytes(hs[1..], orders[1..])
  }

  function TopFieldBytes(sd: SigningData, f: TopField, orders: seq<seq<HashField>>): (bs: Bytes)
    requires |sd.unsignedSigHashes| == |orders|
  {
    match f
    case Tx => KeyBytes(KEY_TX) + BinBytes(sd.tx)
    case UnsignedSigHashes =>
      KeyBytes(KEY_UH) + ArrayHeader(|sd.unsignedSigHashes| % FOUR_GIB) + HashesBytes(sd.unsignedSigHashes, orders)
  }

  /** An encoding of sd with every map's keys in a chosen order. */
  function OrderedBytes(sd: SigningData, first: TopField, orders: seq<seq<HashField>>): Bytes
    requires |sd.unsignedSigHashes| == |orders|
  {
    var second := if first.Tx? then UnsignedSigHashes else Tx;
    [0x82] + TopFieldBytes(sd, first, orders) + TopFieldBytes(sd, second, orders)
  }

  const DECLARED_ORDER: seq<HashField> := [IndexField, SigHashField, ScriptField]

  function DeclaredOrders(n: nat): (orders: seq<seq<HashField>>)
    ensures |orders| == n
  {
    seq(n, i => DECLARED_ORDER)
  }

  /** What MarshalMsg appends: keys in declaration order. */
  function SigningDataBytes(sd: SigningData): (bs: Bytes)
  {
    OrderedBytes(sd, Tx, DeclaredOrders(|sd.unsignedSigHashes|))
  }

  function HashBytes(h: UnsignedSigHash): (bs: Bytes)
  {
    [0x83] + HashFieldsBytes(h, DECLARED_ORDER)
  }

  lemma DeclaredFields(h: UnsignedSigHash)
    ensures HashFieldsBytes(h, DECLARED_ORDER)
      == HashFieldBytes(h, IndexField) + (HashFieldBytes(h, SigHashField) + (HashFieldBytes(h, ScriptField) + []))
  {
    var o1 := [SigHashField, ScriptField];
    var o2 := [ScriptField];
    assert DECLARED_ORDER[1..] == o1 && o1[1..] == o2 && o2[1..] == [];
    assert HashFieldsBytes(h, o2) == HashFieldBytes(h, ScriptField) + HashFieldsBytes(h, []);
    assert HashFieldsBytes(h, o1) == HashFieldBytes(h, SigHashField) + HashFieldsBytes(h, o2);
  }

  lemma Regroup(o: Bytes, m: Bytes, ki: Bytes, i: Bytes, ks: Bytes, s: Bytes, kw: Bytes, w: Bytes)
    ensures o + (m + ki) + i + ks + s + kw + w == o + (m + ((ki + i) + ((ks + s) + ((kw + w) + []))))
  {
  }

  /** The six appends of one loop iteration add exactly the sighash's encoding. */
  lemma AppendHash(o: Bytes, h: UnsignedSigHash)
    ensures o + [0x83, 0xa1, 0x69] + UintBytes(h.index) + [0xa2, 0x68, 0x73] + BinBytes(h.sigHash)
            + [0xa2, 0x77, 0x73] + BinBytes(h.witnessScript)
         == o + HashBytes(h)
  {
    DeclaredFields(h);
    var m: Bytes := [0x83];
    assert m + KeyBytes(KEY_I) == [0x83, 0xa1, 0x69];
    assert KeyBytes(KEY_HS) == [0xa2, 0x68, 0x73];
    assert KeyBytes(KEY_WS) == [0xa2, 0x77, 0x73];
    Regroup(o, m, KeyBytes(KEY_I), UintBytes(h.index), KeyBytes(KEY_HS), BinBytes(h.sigHash),
            KeyBytes(KEY_WS), BinBytes(h.witnessScript));
  }

  lemma HashBytesLength(h: UnsignedSigHash)
    ensures |HashBytes(h)| <= 24 + |h.sigHash| + |h.witnessScript| <= |HashBytes(h)| + 10
  {
    AppendHash([], h);
  }

  lemma Associate(a: Bytes, b: Bytes, c: Bytes)
    ensures (a + b) + c == a + (b + c)
  {
  }

  lemma Concatenate(b: Bytes, m: Bytes, kt: Bytes, t: Bytes, ku: Bytes, a: Bytes, hs: Bytes)
    ensures b + (m + kt) + t + ku + a + hs == b + (m + (kt + t) + (ku + a + hs))
  {
  }

  lemma SigningDataLayout(b: Bytes, sd: SigningData)
    ensures b + [0x82, 0xa2, 0x74, 0x78] + BinBytes(sd.tx) + [0xa2, 0x75, 0x68]
            + ArrayHeader(|sd.unsignedSigHashes| % FOUR_GIB)
            + HashesBytes(sd.unsignedSigHashes, DeclaredOrders(|sd.unsignedSigHashes|))
         == b + SigningDataBytes(sd)
  {
    var m: Bytes := [0x82];
    assert m + KeyBytes(KEY_TX) == [0x82, 0xa2, 0x74, 0x78];
    assert KeyBytes(KEY_UH) == [0xa2, 0x75, 0x68];
    Concatenate(b, m, KeyBytes(KEY_TX), BinBytes(sd.tx), KeyBytes(KEY_UH),
                ArrayHeader(|sd.unsignedSigHashes| % FOUR_GIB),
                HashesBytes(sd.unsignedSigHashes, DeclaredOrders(|sd.unsignedSigHashes|)));
  }

  /** The encoded sighashes are built front to back. */
  lemma {:induction false} HashesAppend(hs: seq<UnsignedSigHash>, h: UnsignedSigHash)
    ensures HashesBytes(hs + [h], DeclaredOrders(|hs| + 1)) == HashesBytes(hs, DeclaredOrders(|hs|)) + HashBytes(h)
  {
    var n := |hs|;
    assert DeclaredOrders(n + 1)[1..] == DeclaredOrders(n);
    if hs == [] {
      assert (hs + [h])[1..] == [];
    } else {
      HashesAppend(hs[1..], h);
      assert (hs + [h])[1..] == hs[1..] + [h];
      assert DeclaredOrders(n)[1..] == DeclaredOrders(n - 1);
    }
  }

  /** One loop iteration of MarshalMsg. */
  lemma AppendElement(head: Bytes, hs: seq<UnsignedSigHash>, i: nat, o: Bytes)
    requires i < |hs| && o == head + HashesBytes(hs[..i], DeclaredOrders(i))
    ensures o + [0x83, 0xa1, 0x69] + UintBytes(hs[i].index) + [0xa2, 0x68, 0x73] + BinBytes(hs[i].sigHash)
            + [0xa2, 0x77, 0x73] + BinBytes(hs[i].witnessScript)
         == head + HashesBytes(hs[..i + 1], DeclaredOrders(i + 1))
  {
    hide UintBytes, BinBytes, HashBytes, HashesBytes, DeclaredOrders;
    calc {
      o + [0x83, 0xa1, 0x69] + UintBytes(hs[i].index) + [0xa2, 0x68, 0x73] + BinBytes(hs[i].sigHash)
        + [0xa2, 0x77, 0x73] + BinBytes(hs[i].witnessScript);
      { AppendHash(o, hs[i]); }
      o + HashBytes(hs[i]);
      { Associate(head, HashesBytes(hs[..i], DeclaredOrders(i)), HashBytes(hs[i])); }
      head + (HashesBytes(hs[..i], DeclaredOrders(i)) + HashBytes(hs[i]));
      { HashesAppend(hs[..i], hs[i]); assert hs[..i + 1] == hs[..i] + [hs[i]]; }
      head + HashesBytes(hs[..i + 1], DeclaredOrders(i + 1));
    }
  }

  /** MarshalMsg appends the encoding to b. */
  method MarshalMsg(z: SigningData, b: Bytes) returns (o: Bytes)
    ensures o == b + SigningDataBytes(z)
  {
    assert HashesBytes([], DeclaredOrders(0)) == [];
    hide UintBytes, BinBytes, ArrayHeader, HashesBytes, SigningDataBytes;
    var hs := z.unsignedSigHashes;
    o := b + [0x82, 0xa2, 0x74, 0x78];
    o := o + BinBytes(z.tx);
    o := o + [0xa2, 0x75, 0x68];
    o := o + ArrayHeader(|hs| % FOUR_GIB);
    ghost var head := o;
    for i := 0 to |hs|
      invariant o == head + HashesBytes(hs[..i], DeclaredOrders(i))
    {
      AppendElement(head, hs, i, o);
      o := o + [0x83, 0xa1, 0x69];
      o := o + UintBytes(hs[i].index);
      o := o + [0xa2, 0x68, 0x73];
      o := o + BinBytes(hs[i].sigHash);
      o := o + [0xa2, 0x77, 0x73];
      o := o + BinBytes(hs[i].witnessScript);
    }
    assert hs[..|hs|] == hs;
    SigningDataLayout(b, z);
  }

  /** Msgsize bounds the encoded length from above, by a slack the prefixes alone account for. */
  method Msgsize(z: SigningData) returns (s: nat)
    ensures |SigningDataBytes(z)| <= s <= |SigningDataBytes(z)| + 7 + 10 * |z.unsignedSigHashes|
  {
    hide UintBytes, HashBytes, SigningDataBytes;
    var hs := z.unsignedSigHashes;
    s := 1 + 3 + 5 + |z.tx| + 3 + 5;
    ghost var top := 7 + |BinBytes(z.tx)| + |ArrayHeader(|hs| % FOUR_GIB)|;
    for i := 0 to |hs|
      invariant top + |HashesBytes(hs[..i], DeclaredOrders(i))| <= s
      invariant s <= top + |HashesBytes(hs[..i], DeclaredOrders(i))| + 7 + 10 * i
    {
      s := s + 1 + 2 + 5 + 3 + 5 + |hs[i].sigHash| + 3 + 5 + |hs[i].witnessScript|;
      HashBytesLength(hs[i]);
      HashesAppend(hs[..i], hs[i]);
      assert hs[..i + 1] == hs[..i] + [hs[i]];
    }
    assert hs[..|hs|] == hs;
    SigningDataLayout([], z);
  }

  // ---------------------------------------------------------------- reading

  const ZERO_HASH := UnsignedSigHash(0, [], [])

  /** One key/value pair of a sighash map, read into `cur`; an unknown key's value is skipped. */
  function DecodeHashField(b: Bytes, cur: UnsignedSigHash): (r: Read<UnsignedSigHash>)
  {
    var (key, b1) :- ReadMapKey(b);
    if key == KEY_I then
      var (v, b2) :- ReadUint32(b1);
      Ok((cur.(index := v), b2))
    else if key == KEY_HS then
      var (v, b2) :- ReadBytes(b1);
      Ok((cur.(sigHash := v), b2))
    else if key == KEY_WS then
      var (v, b2) :- ReadBytes(b1);
      Ok((cur.(witnessScript := v), b2))
    else
      var b2 :- Skip(b1, 1);
      Ok((cur, b2))
  }

  function DecodeHashFields(n: nat, b: Bytes, cur: UnsignedSigHash): (r: Read<UnsignedSigHash>)
    decreases n
  {
    if n == 0 then Ok((cur, b)) else
    var (next, b1) :- DecodeHashField(b, cur);
    DecodeHashFields(n - 1, b1, next)
  }

  /** One sighash of the array: a map header and its pairs. */
  function DecodeHash(b: Bytes, h: UnsignedSigHash): (r: Read<UnsignedSigHash>)
  {
    var (n, b1) :- ReadMapHeader(b);
    DecodeHashFields(n, b1, h)
  }

  /** Elements i up to len of the array, each decoded over what the backing array holds. */
  function DecodeHashes(b: Bytes, backing: seq<UnsignedSigHash>, i: nat, len: nat): (r: Read<seq<UnsignedSigHash>>)
    requires i <= len <= |backing|
    ensures r.Ok? ==> |r.value.0| == |backing|
    decreases len - i
  {
    if i == len then Ok((backing, b)) else
    var (h, b2) :- DecodeHash(b, backing[i]);
    DecodeHashes(b2, backing[i := h], i + 1, len)
  }

  /** SigningData under construction; the slice is the first `len` elements of its backing array. */
  datatype Decoding = Decoding(tx: Bytes, backing: seq<UnsignedSigHash>, len: nat) {
    ghost predicate Valid() {
      len <= |backing|
    }

    /** Reslices when the capacity suffices, allocates zero values otherwise. */
    function Resize(n: nat): (d: Decoding)
      ensures d.Valid() && d.len == n
    {
      if n <= |backing| then this.(len := n)
      else Decoding(tx, seq(n, i => ZERO_HASH), n)
    }
  }

  function DecodeField(b: Bytes, d: Decoding): (r: Read<Decoding>)
    requires d.Valid()
    ensures r.Ok? ==> r.value.0.Valid()
  {
    var (key, b1) :- ReadMapKey(b);
    if key == KEY_TX then
      var (v, b2) :- ReadBytes(b1);
      Ok((d.(tx := v), b2))
    else if key == KEY_UH then
      var (len, b2) :- ReadArrayHeader(b1);
      var d' := d.Resize(len);
      var (hs, b3) :- DecodeHashes(b2, d'.backing, 0, len);
      Ok((d'.(backing := hs), b3))
    else
      var b2 :- Skip(b1, 1);
      Ok((d, b2))
  }

  function DecodeFields(n: nat, b: Bytes, d: Decoding): (r: Read<Decoding>)
    requires d.Valid()
    ensures r.Ok? ==> r.value.0.Valid()
    decreases n
  {
    if n == 0 then Ok((d, b)) else
    var (next, b1) :- DecodeField(b, d);
    DecodeFields(n - 1, b1, next)
  }

  /** The value read into a fresh SigningData and the bytes left over. */
  function DecodeSigningData(b: Bytes): (r: Read<SigningData>)
  {
    var (n, b1) :- ReadMapHeader(b);
    Finish(DecodeFields(n, b1, Decoding([], [], 0)))
  }

  function Finish(r: Read<Decoding>): (f: Read<SigningData>)
    requires r.Ok? ==> r.value.0.Valid()
  {
    var (d, b) :- r;
    Ok((SigningData(d.tx, d.backing[..d.len]), b))
  }

  method UnmarshalHash(b: Bytes, h0: UnsignedSigHash) returns (r: Read<UnsignedSigHash>)
    ensures r == DecodeHash(b, h0)
  {
    hide ReadMapKey, ReadBytes, ReadUint32, ReadMapHeader, Skip;
    var head :- ReadMapHeader(b);
    var zb0003, bts := head.0, head.1;
    var h := h0;
    while zb0003 > 0
      invariant DecodeHash(b, h0) == DecodeHashFields(zb0003, bts, h)
      decreases zb0003
    {
      var field :- ReadMapKey(bts);
      if field.0 == KEY_I {
        var v :- ReadUint32(field.1);
        h, bts := h.(index := v.0), v.1;
      } else if field.0 == KEY_HS {
        var v :- ReadBytes(field.1);
        h, bts := h.(sigHash := v.0), v.1;
      } else if field.0 == KEY_WS {
        var v :- ReadBytes(field.1);
        h, bts := h.(witnessScript := v.0), v.1;
      } else {
        bts :- Skip(field.1, 1);
      }
      zb0003 := zb0003 - 1;
    }
    r := Ok((h, bts));
  }

  /** Decodes into a fresh SigningData, as UnmarshalSigningData does. */
  method UnmarshalMsg(b: Bytes) returns (r: Read<SigningData>)
    ensures r == DecodeSigningData(b)
  {
    hide ReadMapKey, ReadBytes, ReadArrayHeader, ReadMapHeader, Skip, DecodeHash;
    var head :- ReadMapHeader(b);
    var zb0001, bts := head.0, head.1;
    var z := Decoding([], [], 0);
    while zb0001 > 0
      invariant z.Valid()
      invariant DecodeSigningData(b) == Finish(DecodeFields(zb0001, bts, z))
      decreases zb0001
    {
      var field :- ReadMapKey(bts);
      if field.0 == KEY_TX {
        var v :- ReadBytes(field.1);
        z, bts := z.(tx := v.0), v.1;
      } else if field.0 == KEY_UH {
        var len :- ReadArrayHeader(field.1);
        ghost var d := z.Resize(len.0);
        z, bts := z.Resize(len.0), len.1;
        var za0001 := 0;
        while za0001 < z.len
          invariant za0001 <= z.len == d.len && z.Valid() && z.tx == d.tx
          invariant DecodeHashes(len.1, d.backing, 0, d.len) == DecodeHashes(bts, z.backing, za0001, z.len)
        {
          var h :- UnmarshalHash(bts, z.backing[za0001]);
          z, bts := z.(backing := z.backing[za0001 := h.0]), h.1;
          za0001 := za0001 + 1;
        }
      } else {
        bts :- Skip(field.1, 1);
      }
      zb0001 := zb0001 - 1;
    }
    r := Ok((SigningData(z.tx, z.backing[..z.len]), bts));
  }

  // ------------------------------------------------------------- round trip

  function SetField(cur: UnsignedSigHash, h: UnsignedSigHash, f: HashField): UnsignedSigHash {
    match f
    case IndexField => cur.(index := h.index)
    case SigHashField => cur.(sigHash := h.sigHash)
    case ScriptField => cur.(witnessScript := h.witnessScript)
  }

  /** `cur` after the fields in `order` have been read from an encoding of h. */
  function Fill(cur: UnsignedSigHash, h: UnsignedSigHash, order: seq<HashField>): UnsignedSigHash
    decreases |order|
  {
    if order == [] then cur else Fill(SetField(cur, h, order[0]), h, order[1..])
  }

  lemma DecodeOneField(h: UnsignedSigHash, f: HashField, cur: UnsignedSigHash, rest: Bytes)
    requires EncodableHash(h)
    ensures DecodeHashField(HashFieldBytes(h, f) + rest, cur) == Ok((SetField(cur, h, f), rest))
  {
    match f
    case IndexField =>
      assert HashFieldBytes(h, f) + rest == KeyBytes(KEY_I) + (UintBytes(h.index) + rest);
      KeyRoundTrip(KEY_I, UintBytes(h.index) + rest);
      UintRoundTrip(h.index, rest);
    case SigHashField =>
      assert HashFieldBytes(h, f) + rest == KeyBytes(KEY_HS) + (BinBytes(h.sigHash) + rest);
      KeyRoundTrip(KEY_HS, BinBytes(h.sigHash) + rest);
      BinRoundTrip(h.sigHash, rest);
    case ScriptField =>
      assert HashFieldBytes(h, f) + rest == KeyBytes(KEY_WS) + (BinBytes(h.witnessScript) + rest);
      KeyRoundTrip(KEY_WS, BinBytes(h.witnessScript) + rest);
      BinRoundTrip(h.witnessScript, rest);
  }

  lemma {:induction false} DecodeFieldsInOrder(h: UnsignedSigHash, order: seq<HashField>, cur: UnsignedSigHash,
                                               rest: Bytes)
    requires EncodableHash(h)
    ensures DecodeHashFields(|order|, HashFieldsBytes(h, order) + rest, cur) == Ok((Fill(cur, h, order), rest))
    decreases |order|
  {
    if order == [] {
      assert HashFieldsBytes(h, order) + rest == rest;
    } else {
      var first, tail := HashFieldBytes(h, order[0]), HashFieldsBytes(h, order[1..]);
      assert HashFieldsBytes(h, order) + rest == first + (tail + rest);
      DecodeOneField(h, order[0], cur, tail + rest);
      DecodeFieldsInOrder(h, order[1..], SetField(cur, h, order[0]), rest);
    }
  }

  /** A key order for a sighash: all three keys, each once. */
  predicate IsKeyOrder(order: seq<HashField>) {
    |order| == 3 && IndexField in order && SigHashField in order && ScriptField in order
  }

  lemma FillAll(cur: UnsignedSigHash, h: UnsignedSigHash, order: seq<HashField>)
    requires IsKeyOrder(order)
    ensures Fill(cur, h, order) == h
  {
    var o1 := order[1..];
    var o2 := o1[1..];
    assert order == [order[0], order[1], order[2]];
    assert o1[0] == order[1] && o2[0] == order[2] && o2[1..] == [];
    var c1 := SetField(cur, h, order[0]);
    var c2 := SetField(c1, h, order[1]);
    assert Fill(cur, h, order) == Fill(c1, h, o1);
    assert Fill(c1, h, o1) == Fill(c2, h, o2);
    assert Fill(c2, h, o2) == SetField(c2, h, order[2]);
  }

  lemma {:induction false} DecodeHashesInOrder(
    hs: seq<UnsignedSigHash>, orders: seq<seq<HashField>>, backing: seq<UnsignedSigHash>, i: nat, rest: Bytes)
    requires |hs| == |orders| && i + |hs| == |backing|
    requires forall h :: h in hs ==> EncodableHash(h)
    requires forall o :: o in orders ==> IsKeyOrder(o)
    ensures DecodeHashes(HashesBytes(hs, orders) + rest, backing, i, |backing|) == Ok((backing[..i] + hs, rest))
    decreases |hs|
  {
    hide DecodeHashFields, HashFieldsBytes, Fill;
    var b := HashesBytes(hs, orders) + rest;
    if hs == [] {
      assert b == rest && backing[..i] + hs == backing;
    } else {
      var h, order := hs[0], orders[0];
      var tail := HashesBytes(hs[1..], orders[1..]) + rest;
      assert b == [0x83] + (HashFieldsBytes(h, order) + tail);
      assert b[1..] == HashFieldsBytes(h, order) + tail;
      assert ReadMapHeader(b) == Ok((3, b[1..]));
      assert h in hs && order in orders;
      DecodeFieldsInOrder(h, order, backing[i], tail);
      FillAll(backing[i], h, order);
      var backing' := backing[i := h];
      DecodeHashesInOrder(hs[1..], orders[1..], backing', i + 1, rest);
      assert backing'[..i + 1] + hs[1..] == backing[..i] + hs;
    }
  }

  lemma DecodeTxField(sd: SigningData, orders: seq<seq<HashField>>, d: Decoding, rest: Bytes)
    requires Encodable(sd) && |orders| == |sd.unsignedSigHashes| && d.Valid()
    ensures DecodeField(TopFieldBytes(sd, Tx, orders) + rest, d) == Ok((d.(tx := sd.tx), rest))
  {
    var b := TopFieldBytes(sd, Tx, orders) + rest;
    assert b == KeyBytes(KEY_TX) + (BinBytes(sd.tx) + rest);
    KeyRoundTrip(KEY_TX, BinBytes(sd.tx) + rest);
    BinRoundTrip(sd.tx, rest);
  }

  lemma DecodeHashesField(sd: SigningData, orders: seq<seq<HashField>>, d: Decoding, rest: Bytes)
    requires Encodable(sd) && |orders| == |sd.unsignedSigHashes|
    requires forall o :: o in orders ==> IsKeyOrder(o)
    requires d.backing == [] && d.len == 0
    ensures DecodeField(TopFieldBytes(sd, UnsignedSigHashes, orders) + rest, d)
         == Ok((Decoding(d.tx, sd.unsignedSigHashes, |sd.unsignedSigHashes|), rest))
  {
    hide DecodeHashes, HashesBytes, ReadArrayHeader, ArrayHeader, ReadMapKey, KeyBytes;
    var hs := sd.unsignedSigHashes;
    var len := |hs|;
    var elements := HashesBytes(hs, orders) + rest;
    var b := TopFieldBytes(sd, UnsignedSigHashes, orders) + rest;
    assert b == KeyBytes(KEY_UH) + (ArrayHeader(len) + elements);
    KeyRoundTrip(KEY_UH, ArrayHeader(len) + elements);
    ArrayHeaderRoundTrip(len, elements);
    var d' := d.Resize(len);
    DecodeHashesInOrder(hs, orders, d'.backing, 0, rest);
    assert d'.backing[..0] + hs == hs;
  }

  /** Whatever order an encoder gave the map keys, decoding returns the data and exactly the bytes after it. */
  lemma OrderedRoundTrip(sd: SigningData, first: TopField, orders: seq<seq<HashField>>, rest: Bytes)
    requires Encodable(sd) && |orders| == |sd.unsignedSigHashes|
    requires forall o :: o in orders ==> IsKeyOrder(o)
    ensures DecodeSigningData(OrderedBytes(sd, first, orders) + rest) == Ok((sd, rest))
  {
    hide TopFieldBytes, DecodeField;
    var hs := sd.unsignedSigHashes;
    var b := OrderedBytes(sd, first, orders) + rest;
    var d := Decoding([], [], 0);
    assert ReadMapHeader(b) == Ok((2, b[1..]));
    var second := if first.Tx? then UnsignedSigHashes else Tx;
    var tail := TopFieldBytes(sd, second, orders) + rest;
    assert b[1..] == TopFieldBytes(sd, first, orders) + tail;
    if first.Tx? {
      DecodeTxField(sd, orders, d, tail);
      DecodeHashesField(sd, orders, d.(tx := sd.tx), rest);
    } else {
      DecodeHashesField(sd, orders, d, tail);
      DecodeTxField(sd, orders, Decoding([], hs, |hs|), rest);
    }
    assert DecodeFields(2, b[1..], d) == Ok((Decoding(sd.tx, hs, |hs|), rest));
    assert hs[..|hs|] == hs;
  }

  /** Decoding MarshalMsg's output returns the same signing data with nothing left over. */
  lemma SigningDataRoundTrip(sd: SigningData)
    requires Encodable(sd)
    ensures DecodeSigningData(SigningDataBytes(sd)) == Ok((sd, []))
  {
    var orders := DeclaredOrders(|sd.unsignedSigHashes|);
    forall o | o in orders ensures IsKeyOrder(o) {
      assert o == DECLARED_ORDER;
      assert DECLARED_ORDER[0] == IndexField && DECLARED_ORDER[1] == SigHashField && DECLARED_ORDER[2] == ScriptField;
    }
    OrderedRoundTrip(sd, Tx, orders, []);
    assert SigningDataBytes(sd) + [] == SigningDataBytes(sd);
  }

  // ------------------------------------------------------------- a sighash on its own

  method MarshalHash(h: UnsignedSigHash, b: Bytes) returns (o: Bytes)
    ensures o == b + HashBytes(h)
  {
    AppendHash(b, h);
    hide UintBytes, BinBytes, HashBytes;
    o := b + [0x83, 0xa1, 0x69];
    o := o + UintBytes(h.index);
    o := o + [0xa2, 0x68, 0x73];
    o := o + BinBytes(h.sigHash);
    o := o + [0xa2, 0x77, 0x73];
    o := o + BinBytes(h.witnessScript);
  }

  method HashMsgsize(h: UnsignedSigHash) returns (s: nat)
    ensures |HashBytes(h)| <= s <= |HashBytes(h)| + 10
  {
    s := 1 + 2 + 5 + 3 + 5 + |h.sigHash| + 3 + 5 + |h.witnessScript|;
    HashBytesLength(h);
  }

  /** Reading an encoded sighash, in any key order and over any previous value, gives it back. */
  lemma HashRoundTrip(h: UnsignedSigHash, order: seq<HashField>, previous: UnsignedSigHash, rest: Bytes)
    requires EncodableHash(h) && IsKeyOrder(order)
    ensures DecodeHash([0x83] + HashFieldsBytes(h, order) + rest, previous) == Ok((h, rest))
  {
    var fields := HashFieldsBytes(h, order) + rest;
    var b := [0x83] + HashFieldsBytes(h, order) + rest;
    DecodeFieldsInOrder(h, order, previous, rest);
    FillAll(previous, h, order);
    hide HashFieldsBytes, DecodeHashFields, Fill;
    assert b == [0x83] + fields && b[1..] == fields;
    assert ReadMapHeader(b) == Ok((3, b[1..]));
  }
}
