// The MessagePack primitives that the generated signing-data codec calls
// (MessagePack specification, int, str, bin, array and map format families).

module MessagePack {
  import opened Wrappers
  import opened Int64
  import opened Bytes

  const FOUR_GIB := 0x1_0000_0000

  // ---------------------------------------------------------------- writing

  /** Shortest unsigned integer form. */
  function UintBytes(u: Uint32): (bs: Bytes)
    ensures 1 <= |bs| <= 5
  {
    if u < 0x80 then [u]
    else if u < 0x100 then [0xcc, u]
    else if u < 0x1_0000 then [0xcd] + ToBE(u, 2)
    else [0xce] + ToBE(u, 4)
  }

  /** bin 8/16/32 header for a payload of n bytes, the length cut to 32 bits. */
  function BinHeader(n: nat): (bs: Bytes)
    ensures 2 <= |bs| <= 5
  {
    if n < 0x100 then [0xc4, n]
    else if n < 0x1_0000 then [0xc5] + ToBE(n, 2)
    else [0xc6] + ToBE(n % FOUR_GIB, 4)
  }

  function BinBytes(payload: Bytes): Bytes {
    BinHeader(|payload|) + payload
  }

  function ArrayHeader(n: Uint32): (bs: Bytes)
    ensures 1 <= |bs| <= 5
  {
    if n < 16 then [0x90 + n]
    else if n < 0x1_0000 then [0xdc] + ToBE(n, 2)
    else [0xdd] + ToBE(n, 4)
  }

  /** A fixstr, the form the generated code uses for its short map keys. */
  function KeyBytes(key: Bytes): Bytes
    requires |key| < 32
  {
    [0xa0 + |key|] + key
  }

  // ---------------------------------------------------------------- reading

  type Read<T> = Result<(T, Bytes)>

  /** A big-endian number of w bytes that follows a lead byte. */
  function ReadBE(b: Bytes, w: nat): (r: Read<nat>)
    ensures r.Ok? ==> |r.value.1| + 1 + w == |b|
  {
    if |b| < 1 + w then Err(ErrJson) else Ok((FromBE(b[1..1 + w]), b[1 + w..]))
  }

  function TakePayload(r: Read<nat>): (p: Read<Bytes>)
    ensures p.Ok? ==> r.Ok? && |p.value.1| <= |r.value.1|
  {
    if r.Err? then Err(r.error)
    else if r.value.0 > |r.value.1| then Err(ErrJson)
    else Ok((r.value.1[..r.value.0], r.value.1[r.value.0..]))
  }

  function ReadMapHeader(b: Bytes): (r: Read<nat>)
  {
    if b == [] then Err(ErrJson)
    else if 0x80 <= b[0] < 0x90 then Ok((b[0] - 0x80, b[1..]))
    else if b[0] == 0xde then ReadBE(b, 2)
    else if b[0] == 0xdf then ReadBE(b, 4)
    else Err(ErrJson)
  }

  function ReadArrayHeader(b: Bytes): (r: Read<nat>)
  {
    if b == [] then Err(ErrJson)
    else if 0x90 <= b[0] < 0xa0 then Ok((b[0] - 0x90, b[1..]))
    else if b[0] == 0xdc then ReadBE(b, 2)
    else if b[0] == 0xdd then ReadBE(b, 4)
    else Err(ErrJson)
  }

  predicate IsBin(b: Bytes) {
    b != [] && 0xc4 <= b[0] <= 0xc6
  }

  function ReadBytes(b: Bytes): (r: Read<Bytes>)
  {
    if b == [] then Err(ErrJson)
    else if b[0] == 0xc4 then TakePayload(ReadBE(b, 1))
    else if b[0] == 0xc5 then TakePayload(ReadBE(b, 2))
    else if b[0] == 0xc6 then TakePayload(ReadBE(b, 4))
    else Err(ErrJson)
  }

  function ReadString(b: Bytes): (r: Read<Bytes>)
  {
    if b == [] then Err(ErrJson)
    else if 0xa0 <= b[0] < 0xc0 then TakePayload(Ok((b[0] - 0xa0, b[1..])))
    else if b[0] == 0xd9 then TakePayload(ReadBE(b, 1))
    else if b[0] == 0xda then TakePayload(ReadBE(b, 2))
    else if b[0] == 0xdb then TakePayload(ReadBE(b, 4))
    else Err(ErrJson)
  }

  /** Map keys may be written as strings or as binary. */
  function ReadMapKey(b: Bytes): (r: Read<Bytes>)
  {
    if IsBin(b) then ReadBytes(b) else ReadString(b)
  }

  /** A two's-complement number of w bytes, accepted when it is not negative. */
  function ReadNonNegative(b: Bytes, w: nat): (r: Read<nat>)
    requires w > 0
  {
    if |b| < 1 + w then Err(ErrJson)
    else if b[1] >= 128 then Err(ErrJson)
    else ReadBE(b, w)
  }

  function ReadUint64(b: Bytes): (r: Read<nat>)
  {
    if b == [] then Err(ErrJson)
    else if b[0] < 0x80 then Ok((b[0], b[1..]))
    else if b[0] == 0xcc then ReadBE(b, 1)
    else if b[0] == 0xcd then ReadBE(b, 2)
    else if b[0] == 0xce then ReadBE(b, 4)
    else if b[0] == 0xcf then ReadBE(b, 8)
    else if b[0] == 0xd0 then ReadNonNegative(b, 1)
    else if b[0] == 0xd1 then ReadNonNegative(b, 2)
    else if b[0] == 0xd2 then ReadNonNegative(b, 4)
    else if b[0] == 0xd3 then ReadNonNegative(b, 8)
    else Err(ErrJson)
  }

  function ReadUint32(b: Bytes): (r: Read<Uint32>)
  {
    var r := ReadUint64(b);
    if r.Err? then Err(r.error)
    else if r.value.0 >= FOUR_GIB then Err(ErrJson)
    else Ok((r.value.0, r.value.1))
  }

  /** Size of the object head at b[0] together with its payload, and how many objects nest in it. */
  function ObjectSize(b: Bytes): (r: Result<(nat, nat)>)
    requires b != []
    ensures r.Ok? ==> r.value.0 > 0
  {
    var lead := b[0];
    if lead < 0x80 || lead >= 0xe0 then Ok((1, 0))
    else if lead < 0x90 then Ok((1, 2 * (lead - 0x80)))
    else if lead < 0xa0 then Ok((1, lead - 0x90))
    else if lead < 0xc0 then Ok((1 + (lead - 0xa0), 0))
    else if lead == 0xc0 || lead == 0xc2 || lead == 0xc3 then Ok((1, 0))
    else if lead == 0xc1 then Err(ErrJson)
    else if lead == 0xc4 || lead == 0xd9 then Sized(b, 1, 0)
    else if lead == 0xc5 || lead == 0xda then Sized(b, 2, 0)
    else if lead == 0xc6 || lead == 0xdb then Sized(b, 4, 0)
    else if lead == 0xc7 then Sized(b, 1, 1)
    else if lead == 0xc8 then Sized(b, 2, 1)
    else if lead == 0xc9 then Sized(b, 4, 1)
    else if lead == 0xcc || lead == 0xd0 then Ok((2, 0))
    else if lead == 0xcd || lead == 0xd1 || lead == 0xd4 then Ok((3, 0))
    else if lead == 0xd5 then Ok((4, 0))
    else if lead == 0xca || lead == 0xce || lead == 0xd2 then Ok((5, 0))
    else if lead == 0xd6 then Ok((6, 0))
    else if lead == 0xcb || lead == 0xcf || lead == 0xd3 then Ok((9, 0))
    else if lead == 0xd7 then Ok((10, 0))
    else if lead == 0xd8 then Ok((18, 0))
    else if lead == 0xdc then Nested(b, 2, 1)
    else if lead == 0xdd then Nested(b, 4, 1)
    else if lead == 0xde then Nested(b, 2, 2)
    else Nested(b, 4, 2)
  }

  function Sized(b: Bytes, w: nat, extra: nat): (r: Result<(nat, nat)>)
    ensures r.Ok? ==> r.value.0 > 0
  {
    var n := ReadBE(b, w);
    if n.Err? then Err(n.error) else Ok((1 + w + extra + n.value.0, 0))
  }

  function Nested(b: Bytes, w: nat, each: nat): (r: Result<(nat, nat)>)
    ensures r.Ok? ==> r.value.0 > 0
  {
    var n := ReadBE(b, w);
    if n.Err? then Err(n.error) else Ok((1 + w, each * n.value.0))
  }

  /** Skips `count` objects, nested ones included. */
  function Skip(b: Bytes, count: nat): (r: Result<Bytes>)
    ensures r.Ok? ==> |r.value| + count <= |b|
    decreases |b|
  {
    if count == 0 then Ok(b)
    else if b == [] then Err(ErrJson)
    else
      var size := ObjectSize(b);
      if size.Err? then Err(size.error)
      else if size.value.0 > |b| then Err(ErrJson)
      else
        var rest := Skip(b[size.value.0..], count - 1 + size.value.1);
        rest
  }

  // ------------------------------------------------------------ round trips

  lemma ReadBEWritten(lead: Byte, v: nat, w: nat, rest: Bytes)
    requires v < Pow256(w)
    ensures ReadBE([lead] + ToBE(v, w) + rest, w) == Ok((v, rest))
  {
    var b := [lead] + ToBE(v, w) + rest;
    assert b[1..1 + w] == ToBE(v, w);
    assert b[1 + w..] == rest;
    FromToBE(v, w);
  }

  lemma UintRoundTrip(u: Uint32, rest: Bytes)
    ensures ReadUint32(UintBytes(u) + rest) == Ok((u, rest))
  {
    WidthFacts();
    var b := UintBytes(u) + rest;
    if u < 0x80 {
      assert b[1..] == rest;
    } else if u < 0x100 {
      assert ToBE(u, 1) == [u];
      assert b == [0xcc] + ToBE(u, 1) + rest;
      ReadBEWritten(0xcc, u, 1, rest);
    } else if u < 0x1_0000 {
      ReadBEWritten(0xcd, u, 2, rest);
    } else {
      ReadBEWritten(0xce, u, 4, rest);
    }
  }

  lemma BinRoundTrip(payload: Bytes, rest: Bytes)
    requires |payload| < FOUR_GIB
    ensures ReadBytes(BinBytes(payload) + rest) == Ok((payload, rest))
  {
    WidthFacts();
    var n := |payload|;
    var b := BinBytes(payload) + rest;
    var after := payload + rest;
    assert after[..n] == payload && after[n..] == rest;
    assert b == BinHeader(n) + after;
    if n < 0x100 {
      assert ToBE(n, 1) == [n];
      assert b == [0xc4] + ToBE(n, 1) + after;
      ReadBEWritten(0xc4, n, 1, after);
    } else if n < 0x1_0000 {
      ReadBEWritten(0xc5, n, 2, after);
    } else {
      ReadBEWritten(0xc6, n, 4, after);
    }
  }

  lemma ArrayHeaderRoundTrip(n: Uint32, rest: Bytes)
    ensures ReadArrayHeader(ArrayHeader(n) + rest) == Ok((n, rest))
  {
    WidthFacts();
    var b := ArrayHeader(n) + rest;
    if n < 16 {
      assert b[1..] == rest;
    } else if n < 0x1_0000 {
      ReadBEWritten(0xdc, n, 2, rest);
    } else {
      ReadBEWritten(0xdd, n, 4, rest);
    }
  }

  lemma KeyRoundTrip(key: Bytes, rest: Bytes)
    requires |key| < 32
    ensures ReadMapKey(KeyBytes(key) + rest) == Ok((key, rest))
  {
    var b := KeyBytes(key) + rest;
    assert b[1..] == key + rest;
    assert (key + rest)[..|key|] == key && (key + rest)[|key|..] == rest;
  }
}
