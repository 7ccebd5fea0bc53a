// The signing data as a MessagePack object, and decoding in the presence of
// fields that the decoder does not know.

module SigningDataFormat {
  import opened Wrappers
  import opened Int64
  import opened Bytes
  import opened Types
  import opened MessagePack
  import opened MessageObjects
  import opened SigningDataCodec

  // ---------------------------------------------------------------- the format of what is written

  /** The shortest unsigned integer. */
  function UintObject(u: Uint32): (o: Object) {
    if u < 0x80 then Single(u)
    else if u < 0x100 then Uint(0, [u])
    else if u < 0x1_0000 then Uint(1, ToBE(u, 2))
    else Uint(2, ToBE(u, 4))
  }

  function BinObject(payload: Bytes): (o: Object) {
    Bin(if |payload| < 0x100 then 0 else if |payload| < 0x1_0000 then 1 else 2, payload)
  }

  /** { "i": index, "hs": hash, "ws": script } */
  function HashObject(h: UnsignedSigHash): (o: Object) {
    FixMap([FixStr([0x69]), UintObject(h.index),
            FixStr([0x68, 0x73]), BinObject(h.sigHash),
            FixStr([0x77, 0x73]), BinObject(h.witnessScript)])
  }

  function HashObjects(hs: seq<UnsignedSigHash>): (items: seq<Object>)
    ensures |items| == |hs|
  {
    seq(|hs|, i requires 0 <= i < |hs| => HashObject(hs[i]))
  }

  function ArrayObject(items: seq<Object>): (o: Object) {
    if |items| < 16 then FixArray(items) else Array(if |items| < 0x1_0000 then 0 else 1, items)
  }

  /** { "tx": transaction, "uh": [ sighashes ] } */
  function SigningObject(sd: SigningData): (o: Object) {
    FixMap([FixStr([0x74, 0x78]), BinObject(sd.tx),
            FixStr([0x75, 0x68]), ArrayObject(HashObjects(sd.unsignedSigHashes))])
  }

  lemma EncodePair(key: Object, value: Object, rest: seq<Object>)
    requires Formed(key) && Formed(value) && AllFormed(rest)
    ensures AllFormed([key, value] + rest)
    ensures EncodeAll([key, value] + rest) == (Encode(key) + Encode(value)) + EncodeAll(rest)
  {
    hide Formed, Encode;
    var items := [key, value] + rest;
    assert AllFormed(items) && items[1..] == [value] + rest && items[1..][1..] == rest;
  }

  lemma UintEncoded(u: Uint32)
    ensures Formed(UintObject(u)) && Encode(UintObject(u)) == UintBytes(u)
  {
    Widths();
    hide ToBE;
  }

  lemma BinEncoded(payload: Bytes)
    requires |payload| < FOUR_GIB
    ensures Formed(BinObject(payload)) && Encode(BinObject(payload)) == BinBytes(payload)
  {
    Widths();
    WidthFacts();
    if |payload| < 0x100 {
      assert ToBE(|payload|, 1) == [|payload|];
    }
    hide ToBE, Pow256, Width;
  }

  lemma KeyEncoded(key: Bytes)
    requires |key| < 32
    ensures Formed(FixStr(key)) && Encode(FixStr(key)) == KeyBytes(key)
  {
  }

  lemma MapEncoded(items: seq<Object>)
    requires |items| % 2 == 0 && |items| / 2 < 16 && AllFormed(items)
    ensures Formed(FixMap(items)) && Encode(FixMap(items)) == [0x80 + |items| / 2] + EncodeAll(items)
  {
    hide EncodeAll, AllFormed;
  }

  lemma ArrayEncoded(items: seq<Object>)
    requires |items| < FOUR_GIB && AllFormed(items)
    ensures Formed(ArrayObject(items)) && Encode(ArrayObject(items)) == ArrayHeader(|items|) + EncodeAll(items)
  {
    hide EncodeAll, AllFormed, ToBE, Pow256, Width;
    if |items| >= 16 {
      var k := if |items| < 0x1_0000 then 0 else 1;
      CountFits(k, |items|);
      assert Head(Array(k, items)) == ArrayHeader(|items|);
    }
  }

  lemma CountFits(k: nat, n: nat)
    requires k < 2 && n < if k == 0 then 0x1_0000 else FOUR_GIB
    ensures n < Pow256(2 * Width(k)) && 2 * Width(k) == if k == 0 then 2 else 4
  {
    Widths();
    WidthFacts();
    hide Pow256, Width;
  }

  lemma NothingEncoded()
    ensures AllFormed([]) && EncodeAll([]) == []
  {
  }

  lemma ThreePairs(a: Object, x: Object, b: Object, y: Object, c: Object, z: Object)
    requires Formed(a) && Formed(x) && Formed(b) && Formed(y) && Formed(c) && Formed(z)
    ensures AllFormed([a, x, b, y, c, z])
    ensures EncodeAll([a, x, b, y, c, z])
         == (Encode(a) + Encode(x)) + ((Encode(b) + Encode(y)) + ((Encode(c) + Encode(z)) + []))
  {
    hide Formed, Encode, EncodeAll, AllFormed;
    NothingEncoded();
    EncodePair(c, z, []);
    EncodePair(b, y, [c, z] + []);
    EncodePair(a, x, [b, y] + ([c, z] + []));
    assert [a, x, b, y, c, z] == [a, x] + ([b, y] + ([c, z] + []));
  }

  /** One sighash is written as the object it is. */
  lemma HashIsObject(h: UnsignedSigHash)
    requires EncodableHash(h)
    ensures Formed(HashObject(h)) && Encode(HashObject(h)) == HashBytes(h)
  {
    hide UintBytes, BinBytes, KeyBytes, Encode, EncodeAll, Formed, AllFormed, UintObject, BinObject, HashFieldsBytes;
    KeyEncoded(KEY_I);
    KeyEncoded(KEY_HS);
    KeyEncoded(KEY_WS);
    UintEncoded(h.index);
    BinEncoded(h.sigHash);
    BinEncoded(h.witnessScript);
    DeclaredFields(h);
    var ki, ks, kw := FixStr(KEY_I), FixStr(KEY_HS), FixStr(KEY_WS);
    var i, s, w := UintObject(h.index), BinObject(h.sigHash), BinObject(h.witnessScript);
    ThreePairs(ki, i, ks, s, kw, w);
    MapEncoded([ki, i, ks, s, kw, w]);
  }

  lemma {:induction false} HashesAreObjects(hs: seq<UnsignedSigHash>)
    requires forall h :: h in hs ==> EncodableHash(h)
    ensures AllFormed(HashObjects(hs)) && EncodeAll(HashObjects(hs)) == HashesBytes(hs, DeclaredOrders(|hs|))
  {
    hide HashObject, HashBytes, Formed, Encode, EncodableHash;
    if hs == [] {
      NothingEncoded();
    } else {
      HashIsObject(hs[0]);
      HashesAreObjects(hs[1..]);
      var items := HashObjects(hs);
      assert items[0] == HashObject(hs[0]) && items[1..] == HashObjects(hs[1..]);
      assert AllFormed(items) by {
        forall i | 0 <= i < |items| ensures Formed(items[i]) {
          if i > 0 {
            assert items[i] == items[1..][i - 1];
          }
        }
      }
      assert DeclaredOrders(|hs|)[1..] == DeclaredOrders(|hs| - 1);
      HashFront(hs);
    }
  }

  lemma HashFront(hs: seq<UnsignedSigHash>)
    requires hs != []
    ensures HashesBytes(hs, DeclaredOrders(|hs|)) == HashBytes(hs[0]) + HashesBytes(hs[1..], DeclaredOrders(|hs| - 1))
  {
    hide HashFieldsBytes;
    assert DeclaredOrders(|hs|)[1..] == DeclaredOrders(|hs| - 1);
  }

  lemma Regrouped(a: Bytes, b: Bytes, c: Bytes, d: Bytes)
    ensures [0x82] + (a + ((b + (c + d)) + [])) == [0x82] + a + (b + c + d)
  {
  }

  /** MarshalMsg writes one well-formed object: a map of the transaction and the sighashes, each a map of
      its number, hash and script, under these very keys. */
  lemma SigningDataIsObject(sd: SigningData)
    requires Encodable(sd)
    ensures Formed(SigningObject(sd)) && SigningDataBytes(sd) == Encode(SigningObject(sd))
  {
    hide UintBytes, BinBytes, Encode, EncodeAll, Formed, AllFormed, BinObject, HashObjects, ArrayObject, ArrayHeader;
    hide HashesBytes, KeyBytes;
    var hs := sd.unsignedSigHashes;
    HashesAreObjects(hs);
    hide EncodableHash;
    KeyEncoded(KEY_TX);
    KeyEncoded(KEY_UH);
    BinEncoded(sd.tx);
    ArrayEncoded(HashObjects(hs));
    NothingEncoded();
    var kt, t, ku, u := FixStr(KEY_TX), BinObject(sd.tx), FixStr(KEY_UH), ArrayObject(HashObjects(hs));
    EncodePair(ku, u, []);
    EncodePair(kt, t, [ku, u] + []);
    var items := [kt, t, ku, u];
    assert items == [kt, t] + ([ku, u] + []);
    MapEncoded(items);
    Regrouped(KeyBytes(KEY_TX) + BinBytes(sd.tx), KeyBytes(KEY_UH), ArrayHeader(|hs|),
      HashesBytes(hs, DeclaredOrders(|hs|)));
  }

  /** A reader that does not know the signing data passes over it as a whole. */
  lemma SigningDataSkipped(sd: SigningData, rest: Bytes)
    requires Encodable(sd)
    ensures Skip(SigningDataBytes(sd) + rest, 1) == Ok(rest)
  {
    SigningDataIsObject(sd);
    hide SigningDataBytes, Encode, Formed, SigningObject, Skip;
    SkipExact(SigningObject(sd), rest);
  }

  // ---------------------------------------------------------------- fields nobody knows

  /** A map key: a string or a binary of any length. */
  predicate IsKey(o: Object) {
    Formed(o) && (o.FixStr? || o.Str? || o.Bin?)
  }

  lemma PayloadTaken(payload: Bytes, rest: Bytes)
    ensures TakePayload(Ok((|payload|, payload + rest))) == Ok((payload, rest))
  {
    assert (payload + rest)[..|payload|] == payload && (payload + rest)[|payload|..] == rest;
  }

  lemma ShortKey(key: Bytes, after: Bytes)
    requires |key| < 32
    ensures ReadMapKey([0xa0 + |key|] + after) == TakePayload(Ok((|key|, after)))
  {
    assert ([0xa0 + |key|] + after)[1..] == after;
    hide TakePayload, ReadBE;
  }

  lemma LongKey(o: Object, b: Bytes, after: Bytes)
    requires IsKey(o) && !o.FixStr? && b != [] && b[0] == Head(o)[0]
    requires ReadBE(b, Width(o.k)) == Ok((|o.payload|, after))
    ensures ReadMapKey(b) == TakePayload(Ok((|o.payload|, after)))
  {
    Widths();
    hide TakePayload, ReadBE, Width, ToBE, Pow256;
  }

  lemma KeyReadsBack(o: Object, rest: Bytes)
    requires IsKey(o)
    ensures ReadMapKey(Encode(o) + rest) == Ok((o.payload, rest))
  {
    var after := o.payload + rest;
    PayloadTaken(o.payload, rest);
    hide TakePayload, ReadBE, ReadMapKey, Width, ToBE, Pow256;
    assert Contents(o) == o.payload && Encode(o) + rest == Head(o) + after;
    if o.FixStr? {
      ShortKey(o.payload, after);
    } else {
      CountedHead(if o.Str? then 0xd9 + o.k else 0xc4 + o.k, |o.payload|, Width(o.k), after);
      LongKey(o, Encode(o) + rest, after);
    }
  }

  /** A key with its value. */
  datatype Field = Field(key: Object, value: Object) {
    predicate Foreign(known: set<Bytes>) {
      IsKey(key) && Formed(value) && key.payload !in known
    }

    function Encoded(): Bytes
      requires IsKey(key) && Formed(value)
    {
      Encode(key) + Encode(value)
    }
  }

  predicate AllForeign(fs: seq<Field>, known: set<Bytes>) {
    forall i :: 0 <= i < |fs| ==> fs[i].Foreign(known)
  }

  function FieldsBytes(fs: seq<Field>, known: set<Bytes>): Bytes
    requires AllForeign(fs, known)
  {
    if fs == [] then [] else
    assert fs[0].Foreign(known);
    fs[0].Encoded() + FieldsBytes(fs[1..], known)
  }

  const TOP_KEYS: set<Bytes> := {[0x74, 0x78], [0x75, 0x68]}
  const HASH_KEYS: set<Bytes> := {[0x69], [0x68, 0x73], [0x77, 0x73]}

  lemma ForeignField(f: Field, tail: Bytes, d: Decoding)
    requires f.Foreign(TOP_KEYS) && d.Valid()
    ensures DecodeField(f.Encoded() + tail, d) == Ok((d, tail))
  {
    hide ReadMapKey, Skip, Encode, Formed, ReadBytes, ReadArrayHeader, DecodeHashes;
    assert f.Encoded() + tail == Encode(f.key) + (Encode(f.value) + tail);
    KeyReadsBack(f.key, Encode(f.value) + tail);
    SkipExact(f.value, tail);
  }

  lemma ForeignHashField(f: Field, tail: Bytes, cur: UnsignedSigHash)
    requires f.Foreign(HASH_KEYS)
    ensures DecodeHashField(f.Encoded() + tail, cur) == Ok((cur, tail))
  {
    hide ReadMapKey, Skip, Encode, Formed, ReadBytes, ReadUint32;
    assert f.Encoded() + tail == Encode(f.key) + (Encode(f.value) + tail);
    KeyReadsBack(f.key, Encode(f.value) + tail);
    SkipExact(f.value, tail);
  }

  lemma NextField(n: nat, b: Bytes, d: Decoding, d': Decoding, rest: Bytes)
    requires d.Valid() && d'.Valid() && DecodeField(b, d) == Ok((d', rest))
    ensures DecodeFields(n + 1, b, d) == DecodeFields(n, rest, d')
  {
    hide DecodeField;
  }

  lemma NextHashField(n: nat, b: Bytes, cur: UnsignedSigHash, next: UnsignedSigHash, rest: Bytes)
    requires DecodeHashField(b, cur) == Ok((next, rest))
    ensures DecodeHashFields(n + 1, b, cur) == DecodeHashFields(n, rest, next)
  {
    hide DecodeHashField;
  }

  lemma FirstField(fs: seq<Field>, known: set<Bytes>, tail: Bytes)
    requires fs != [] && AllForeign(fs, known)
    ensures fs[0].Foreign(known) && AllForeign(fs[1..], known)
    ensures FieldsBytes(fs, known) + tail == fs[0].Encoded() + (FieldsBytes(fs[1..], known) + tail)
  {
    hide Formed, IsKey, Encode;
    assert fs[0].Foreign(known);
    assert FieldsBytes(fs, known) == fs[0].Encoded() + FieldsBytes(fs[1..], known);
  }

  /** Unknown fields of the outer map change nothing and are passed over whole. */
  lemma {:induction false} ForeignFields(fs: seq<Field>, n: nat, tail: Bytes, d: Decoding)
    requires AllForeign(fs, TOP_KEYS) && d.Valid()
    ensures DecodeFields(|fs| + n, FieldsBytes(fs, TOP_KEYS) + tail, d) == DecodeFields(n, tail, d)
    decreases |fs|
  {
    hide DecodeField, DecodeFields, Formed, IsKey, Encode;
    if fs == [] {
      assert FieldsBytes(fs, TOP_KEYS) + tail == tail;
    } else {
      FirstField(fs, TOP_KEYS, tail);
      hide FieldsBytes;
      var after := FieldsBytes(fs[1..], TOP_KEYS) + tail;
      ForeignField(fs[0], after, d);
      NextField(|fs| - 1 + n, fs[0].Encoded() + after, d, d, after);
      ForeignFields(fs[1..], n, tail, d);
    }
  }

  /** The same for the map of one sighash. */
  lemma {:induction false} ForeignHashFields(fs: seq<Field>, n: nat, tail: Bytes, cur: UnsignedSigHash)
    requires AllForeign(fs, HASH_KEYS)
    ensures DecodeHashFields(|fs| + n, FieldsBytes(fs, HASH_KEYS) + tail, cur) == DecodeHashFields(n, tail, cur)
    decreases |fs|
  {
    hide DecodeHashField, DecodeHashFields, Formed, IsKey, Encode;
    if fs == [] {
      assert FieldsBytes(fs, HASH_KEYS) + tail == tail;
    } else {
      FirstField(fs, HASH_KEYS, tail);
      hide FieldsBytes;
      var after := FieldsBytes(fs[1..], HASH_KEYS) + tail;
      ForeignHashField(fs[0], after, cur);
      NextHashField(|fs| - 1 + n, fs[0].Encoded() + after, cur, cur, after);
      ForeignHashFields(fs[1..], n, tail, cur);
    }
  }

  function MapHeader(n: Uint32): (bs: Bytes) {
    if n < 16 then [0x80 + n] else if n < 0x1_0000 then [0xde] + ToBE(n, 2) else [0xdf] + ToBE(n, 4)
  }

  lemma MapHeaderReadsBack(n: Uint32, rest: Bytes)
    ensures ReadMapHeader(MapHeader(n) + rest) == Ok((n, rest))
  {
    WidthFacts();
    var b := MapHeader(n) + rest;
    if n < 16 {
      assert b[1..] == rest;
    } else if n < 0x1_0000 {
      ReadBEWritten(0xde, n, 2, rest);
    } else {
      ReadBEWritten(0xdf, n, 4, rest);
    }
  }

  /** The two known fields, in either order. */
  lemma TwoFields(sd: SigningData, first: TopField, second: TopField, orders: seq<seq<HashField>>, between: seq<Field>,
                  n: nat, rest: Bytes)
    requires Encodable(sd) && |orders| == |sd.unsignedSigHashes| && forall o :: o in orders ==> IsKeyOrder(o)
    requires first != second && AllForeign(between, TOP_KEYS)
    ensures DecodeFields(1 + (|between| + (1 + n)),
              TopFieldBytes(sd, first, orders)
              + (FieldsBytes(between, TOP_KEYS) + (TopFieldBytes(sd, second, orders) + rest)),
              Decoding([], [], 0))
         == DecodeFields(n, rest, Decoding(sd.tx, sd.unsignedSigHashes, |sd.unsignedSigHashes|))
  {
    hide TopFieldBytes, DecodeField, DecodeFields, FieldsBytes, Encodable, IsKeyOrder, AllForeign;
    var hs := sd.unsignedSigHashes;
    var start := Decoding([], [], 0);
    var last := TopFieldBytes(sd, second, orders) + rest;
    var more := FieldsBytes(between, TOP_KEYS) + last;
    var all := Decoding(sd.tx, hs, |hs|);
    var half := if first.Tx? then Decoding(sd.tx, [], 0) else Decoding([], hs, |hs|);
    if first.Tx? {
      DecodeTxField(sd, orders, start, more);
      DecodeHashesField(sd, orders, half, rest);
    } else {
      DecodeHashesField(sd, orders, start, more);
      DecodeTxField(sd, orders, half, rest);
    }
    NextField(|between| + (1 + n), TopFieldBytes(sd, first, orders) + more, start, half, more);
    ForeignFields(between, 1 + n, last, half);
    NextField(n, last, half, all, rest);
  }

  lemma Decoded(b: Bytes, n: nat, fields: Bytes, sd: SigningData, rest: Bytes)
    requires ReadMapHeader(b) == Ok((n, fields))
    requires var hs := sd.unsignedSigHashes;
      DecodeFields(n, fields, Decoding([], [], 0)) == Ok((Decoding(sd.tx, hs, |hs|), rest))
    ensures DecodeSigningData(b) == Ok((sd, rest))
  {
    hide ReadMapHeader, DecodeFields;
    assert sd.unsignedSigHashes[..|sd.unsignedSigHashes|] == sd.unsignedSigHashes;
  }

  /** The two known fields with others before, between and after them. */
  function ExtendedFields(sd: SigningData, first: TopField, orders: seq<seq<HashField>>, before: seq<Field>,
                          between: seq<Field>, after: seq<Field>, rest: Bytes): Bytes
    requires |orders| == |sd.unsignedSigHashes|
    requires AllForeign(before, TOP_KEYS) && AllForeign(between, TOP_KEYS) && AllForeign(after, TOP_KEYS)
  {
    var second := if first.Tx? then UnsignedSigHashes else Tx;
    FieldsBytes(before, TOP_KEYS)
    + (TopFieldBytes(sd, first, orders)
       + (FieldsBytes(between, TOP_KEYS)
          + (TopFieldBytes(sd, second, orders) + (FieldsBytes(after, TOP_KEYS) + rest))))
  }

  /** Signing data written by a later version reads back: whatever fields it added before, between and after
      the two that are known, with values of any shape and depth, in whatever key order, decoding returns the
      data and exactly the bytes that follow the map. */
  lemma ExtendedRoundTrip(sd: SigningData, first: TopField, orders: seq<seq<HashField>>, before: seq<Field>,
                          between: seq<Field>, after: seq<Field>, rest: Bytes)
    requires Encodable(sd) && |orders| == |sd.unsignedSigHashes| && forall o :: o in orders ==> IsKeyOrder(o)
    requires AllForeign(before, TOP_KEYS) && AllForeign(between, TOP_KEYS) && AllForeign(after, TOP_KEYS)
    requires |before| + |between| + |after| + 2 < FOUR_GIB
    ensures var fields := ExtendedFields(sd, first, orders, before, between, after, rest);
      DecodeSigningData(MapHeader(|before| + |between| + |after| + 2) + fields) == Ok((sd, rest))
  {
    hide TopFieldBytes, DecodeField, FieldsBytes, Encodable, IsKeyOrder, AllForeign, MapHeader, ReadMapHeader;
    hide DecodeFields, DecodeSigningData;
    var hs := sd.unsignedSigHashes;
    var second := if first.Tx? then UnsignedSigHashes else Tx;
    var fields := ExtendedFields(sd, first, orders, before, between, after, rest);
    var end := FieldsBytes(after, TOP_KEYS) + rest;
    var known := TopFieldBytes(sd, first, orders)
      + (FieldsBytes(between, TOP_KEYS) + (TopFieldBytes(sd, second, orders) + end));
    var n := |before| + |between| + |after| + 2;
    var start, all := Decoding([], [], 0), Decoding(sd.tx, hs, |hs|);
    assert fields == FieldsBytes(before, TOP_KEYS) + known;
    ForeignFields(before, 1 + (|between| + (1 + |after|)), known, start);
    TwoFields(sd, first, second, orders, between, |after|, end);
    ForeignFields(after, 0, rest, all);
    NoFields(rest, all);
    assert n == |before| + (1 + (|between| + (1 + |after|))) && |after| == |after| + 0;
    MapHeaderReadsBack(n, fields);
    Decoded(MapHeader(n) + fields, n, fields, sd, rest);
  }

  lemma NoFields(b: Bytes, d: Decoding)
    requires d.Valid()
    ensures DecodeFields(0, b, d) == Ok((d, b))
  {
  }
}
