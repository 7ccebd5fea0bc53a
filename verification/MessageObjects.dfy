// MessagePack objects as the specification's format families lay them out, and
// what skipping does with them.

module MessageObjects {
  import opened Wrappers
  import opened Bytes
  import opened MessagePack

  /** An object by its format; k picks the width within a family: 1, 2, 4, 8 or 16 bytes. */
  datatype Object =
    | Single(lead: Byte)
    | Uint(k: nat, payload: Bytes)
    | Int(k: nat, payload: Bytes)
    | Float(k: nat, payload: Bytes)
    | FixExt(k: nat, kind: Byte, payload: Bytes)
    | FixStr(payload: Bytes)
    | Str(k: nat, payload: Bytes)
    | Bin(k: nat, payload: Bytes)
    | Ext(k: nat, kind: Byte, payload: Bytes)
    | FixArray(items: seq<Object>)
    | Array(k: nat, items: seq<Object>)
    | FixMap(items: seq<Object>)
    | Map(k: nat, items: seq<Object>)

  function Width(k: nat): nat {
    if k == 0 then 1 else 2 * Width(k - 1)
  }

  /** The sizes a format can express. Maps list keys and values in turn. */
  predicate Formed(o: Object)
    decreases o
  {
    match o
    case Single(lead) => lead < 0x80 || lead >= 0xe0 || lead in {0xc0, 0xc2, 0xc3}
    case Uint(k, payload) => k < 4 && |payload| == Width(k)
    case Int(k, payload) => k < 4 && |payload| == Width(k)
    case Float(k, payload) => k < 2 && |payload| == 4 * Width(k)
    case FixExt(k, _, payload) => k < 5 && |payload| == Width(k)
    case FixStr(payload) => |payload| < 32
    case Str(k, payload) => k < 3 && |payload| < Pow256(Width(k))
    case Bin(k, payload) => k < 3 && |payload| < Pow256(Width(k))
    case Ext(k, _, payload) => k < 3 && |payload| < Pow256(Width(k))
    case FixArray(items) => |items| < 16 && AllFormed(items)
    case Array(k, items) => k < 2 && |items| < Pow256(2 * Width(k)) && AllFormed(items)
    case FixMap(items) => |items| % 2 == 0 && |items| / 2 < 16 && AllFormed(items)
    case Map(k, items) => k < 2 && |items| % 2 == 0 && |items| / 2 < Pow256(2 * Width(k)) && AllFormed(items)
  }

  predicate AllFormed(items: seq<Object>)
    decreases items
  {
    forall i :: 0 <= i < |items| ==> Formed(items[i])
  }

  /** The bytes of an object: a lead byte, a length or count where the format has one, then its contents. */
  function Encode(o: Object): (bs: Bytes)
    requires Formed(o)
    decreases o, 1
  {
    Head(o) + Contents(o)
  }

  function Head(o: Object): (bs: Bytes)
    requires Formed(o)
    ensures bs != []
  {
    match o
    case Single(lead) => [lead]
    case Uint(k, _) => [0xcc + k]
    case Int(k, _) => [0xd0 + k]
    case Float(k, _) => [0xca + k]
    case FixExt(k, kind, _) => [0xd4 + k]
    case FixStr(payload) => [0xa0 + |payload|]
    case Str(k, payload) => [0xd9 + k] + ToBE(|payload|, Width(k))
    case Bin(k, payload) => [0xc4 + k] + ToBE(|payload|, Width(k))
    case Ext(k, kind, payload) => [0xc7 + k] + ToBE(|payload|, Width(k))
    case FixArray(items) => [0x90 + |items|]
    case Array(k, items) => [0xdc + k] + ToBE(|items|, 2 * Width(k))
    case FixMap(items) => [0x80 + |items| / 2]
    case Map(k, items) => [0xde + k] + ToBE(|items| / 2, 2 * Width(k))
  }

  predicate Nests(o: Object) {
    o.FixArray? || o.Array? || o.FixMap? || o.Map?
  }

  function Contents(o: Object): (bs: Bytes)
    requires Formed(o)
    decreases o, 0
  {
    match o
    case Single(_) => []
    case FixExt(_, kind, payload) => [kind] + payload
    case Ext(_, kind, payload) => [kind] + payload
    case FixArray(items) => EncodeAll(items)
    case Array(_, items) => EncodeAll(items)
    case FixMap(items) => EncodeAll(items)
    case Map(_, items) => EncodeAll(items)
    case _ => o.payload
  }

  function EncodeAll(items: seq<Object>): (bs: Bytes)
    requires AllFormed(items)
    decreases items, 0
  {
    if items == [] then [] else Encode(items[0]) + EncodeAll(items[1..])
  }

  lemma Widths()
    ensures Width(0) == 1 && Width(1) == 2 && Width(2) == 4 && Width(3) == 8 && Width(4) == 16
  {
    assert Width(1) == 2 * Width(0);
    assert Width(2) == 2 * Width(1);
    assert Width(3) == 2 * Width(2);
    assert Width(4) == 2 * Width(3);
  }

  /** How many bytes of an object go before the objects nested in it. */
  function Flat(o: Object): nat
    requires Formed(o)
  {
    if Nests(o) then |Head(o)| else |Head(o)| + |Contents(o)|
  }

  /** A length or count that follows a lead byte reads back, whatever comes after it. */
  lemma CountedHead(lead: Byte, n: nat, w: nat, rest: Bytes)
    requires n < Pow256(w)
    ensures ReadBE(([lead] + ToBE(n, w)) + rest, w) == Ok((n, rest))
  {
    ReadBEWritten(lead, n, w, rest);
  }

  function NestedCount(o: Object): nat {
    if Nests(o) then |o.items| else 0
  }

  lemma NumberSize(o: Object, b: Bytes)
    requires Formed(o) && (o.Single? || o.Uint? || o.Int? || o.Float? || o.FixExt?)
    requires b != [] && b[0] == Head(o)[0]
    ensures ObjectSize(b) == Ok((Flat(o), 0))
  {
    Widths();
    hide Width, Sized, Nested, EncodeAll;
  }

  lemma ShortSize(o: Object, b: Bytes)
    requires Formed(o) && (o.FixStr? || o.FixArray? || o.FixMap?)
    requires b != [] && b[0] == Head(o)[0]
    ensures ObjectSize(b) == Ok((Flat(o), NestedCount(o)))
  {
    hide Sized, Nested, EncodeAll, AllFormed;
  }

  lemma PayloadSize(o: Object, b: Bytes)
    requires Formed(o) && (o.Str? || o.Bin? || o.Ext?)
    requires b != [] && b[0] == Head(o)[0] && Sized(b, Width(o.k), if o.Ext? then 1 else 0) == Ok((Flat(o), 0))
    ensures ObjectSize(b) == Ok((Flat(o), 0))
  {
    Widths();
    hide Width, Sized, Nested, Flat, Pow256, ToBE;
  }

  lemma CountSize(o: Object, b: Bytes)
    requires Formed(o) && (o.Array? || o.Map?)
    requires b != [] && b[0] == Head(o)[0]
    requires Nested(b, 2 * Width(o.k), if o.Map? then 2 else 1) == Ok((Flat(o), NestedCount(o)))
    ensures ObjectSize(b) == Ok((Flat(o), NestedCount(o)))
  {
    Widths();
    hide Width, Sized, Nested, Flat, Pow256, ToBE, AllFormed;
  }

  lemma SizedWritten(lead: Byte, n: nat, w: nat, extra: nat, tail: Bytes)
    requires n < Pow256(w)
    ensures Sized(([lead] + ToBE(n, w)) + tail, w, extra) == Ok((1 + w + extra + n, 0))
  {
    CountedHead(lead, n, w, tail);
    hide ReadBE, ToBE, Pow256;
  }

  lemma NestedWritten(lead: Byte, n: nat, w: nat, each: nat, tail: Bytes)
    requires n < Pow256(w)
    ensures Nested(([lead] + ToBE(n, w)) + tail, w, each) == Ok((1 + w, each * n))
  {
    CountedHead(lead, n, w, tail);
    hide ReadBE, ToBE, Pow256;
  }

  lemma PayloadCounted(o: Object, tail: Bytes)
    requires Formed(o) && (o.Str? || o.Bin? || o.Ext?)
    ensures Sized(Head(o) + tail, Width(o.k), if o.Ext? then 1 else 0) == Ok((Flat(o), 0))
  {
    hide Width, Pow256, ToBE, ReadBE, Sized, EncodeAll, AllFormed;
    if o.Str? {
      SizedWritten(0xd9 + o.k, |o.payload|, Width(o.k), 0, tail);
    } else if o.Bin? {
      SizedWritten(0xc4 + o.k, |o.payload|, Width(o.k), 0, tail);
    } else {
      SizedWritten(0xc7 + o.k, |o.payload|, Width(o.k), 1, tail);
    }
  }

  lemma ItemsCounted(o: Object, tail: Bytes)
    requires Formed(o) && (o.Array? || o.Map?)
    ensures Nested(Head(o) + tail, 2 * Width(o.k), if o.Map? then 2 else 1) == Ok((Flat(o), NestedCount(o)))
  {
    hide Width, Pow256, ToBE, ReadBE, Nested, EncodeAll, AllFormed;
    if o.Array? {
      NestedWritten(0xdc + o.k, |o.items|, 2 * Width(o.k), 1, tail);
    } else {
      NestedWritten(0xde + o.k, |o.items| / 2, 2 * Width(o.k), 2, tail);
    }
  }

  /** The object head tells how far the object reaches and how many objects nest in it. */
  lemma SizeOf(o: Object, rest: Bytes)
    requires Formed(o)
    ensures ObjectSize(Encode(o) + rest) == Ok((Flat(o), NestedCount(o)))
  {
    hide ObjectSize, Formed, Head, Contents, Flat, Sized, Nested, Width;
    var b := Encode(o) + rest;
    assert b == Head(o) + (Contents(o) + rest);
    assert b != [] && b[0] == Head(o)[0];
    if o.Str? || o.Bin? || o.Ext? {
      PayloadCounted(o, Contents(o) + rest);
      PayloadSize(o, b);
    } else if o.Array? || o.Map? {
      ItemsCounted(o, Contents(o) + rest);
      CountSize(o, b);
    } else if o.FixStr? || o.FixArray? || o.FixMap? {
      ShortSize(o, b);
    } else {
      NumberSize(o, b);
    }
  }

  lemma AfterHead(o: Object, rest: Bytes)
    requires Formed(o)
    ensures var b := Encode(o) + rest;
      && 0 < Flat(o) <= |b|
      && (Nests(o) ==> AllFormed(o.items) && b[Flat(o)..] == EncodeAll(o.items) + rest)
      && (!Nests(o) ==> b[Flat(o)..] == rest)
  {
    hide Head, EncodeAll, AllFormed;
    var b := Encode(o) + rest;
    assert b == Head(o) + (Contents(o) + rest) && b[|Head(o)|..] == Contents(o) + rest;
    assert b[|Head(o)| + |Contents(o)|..] == rest;
  }

  lemma SkipStep(b: Bytes, count: nat, size: nat, nested: nat)
    requires b != [] && ObjectSize(b) == Ok((size, nested)) && size <= |b|
    ensures Skip(b, count + 1) == Skip(b[size..], count + nested)
  {
    hide ObjectSize;
  }

  /** Skipping passes over exactly one object, nested ones included, whatever follows it. */
  lemma {:induction false} SkipsOne(o: Object, rest: Bytes, count: nat)
    requires Formed(o)
    ensures Skip(Encode(o) + rest, count + 1) == Skip(rest, count)
    decreases o, 1
  {
    hide Skip, ObjectSize, Head, Encode, Contents, EncodeAll, Flat, Formed, AllFormed;
    SizeOf(o, rest);
    var b := Encode(o) + rest;
    AfterHead(o, rest);
    SkipStep(b, count, Flat(o), NestedCount(o));
    if Nests(o) {
      SkipsAll(o.items, rest, count);
    }
  }

  lemma {:induction false} SkipsAll(items: seq<Object>, rest: Bytes, count: nat)
    requires AllFormed(items)
    ensures Skip(EncodeAll(items) + rest, |items| + count) == Skip(rest, count)
    decreases items, 0
  {
    hide Skip, Encode;
    if items == [] {
      assert EncodeAll(items) + rest == rest;
    } else {
      assert EncodeAll(items) + rest == Encode(items[0]) + (EncodeAll(items[1..]) + rest);
      SkipsOne(items[0], EncodeAll(items[1..]) + rest, |items| - 1 + count);
      SkipsAll(items[1..], rest, count);
    }
  }

  /** The law of Skip on its own: one object off the front. */
  lemma SkipExact(o: Object, rest: Bytes)
    requires Formed(o)
    ensures Skip(Encode(o) + rest, 1) == Ok(rest)
  {
    hide Encode, Formed;
    SkipsOne(o, rest, 0);
    assert Skip(rest, 0) == Ok(rest);
    hide Skip;
  }

  // ---------------------------------------------------------------- what the readers accept

  /** The number an object stands for, when it is one and not negative. */
  function Natural(o: Object): (n: Option<nat>)
    requires Formed(o)
  {
    match o
    case Single(lead) => if lead < 0x80 then Some(lead) else None
    case Uint(_, payload) => Some(FromBE(payload))
    case Int(k, payload) =>
      Widths();
      if payload[0] < 0x80 then Some(FromBE(payload)) else None
    case _ => None
  }

  lemma NumberAfterLead(lead: Byte, payload: Bytes, rest: Bytes)
    ensures ReadBE([lead] + payload + rest, |payload|) == Ok((FromBE(payload), rest))
  {
    var b := [lead] + payload + rest;
    assert b[1..1 + |payload|] == payload && b[1 + |payload|..] == rest;
  }

  lemma LeadReads(o: Object, b: Bytes)
    requires Formed(o) && b != [] && b[0] == Head(o)[0]
    ensures !o.Single? && !o.Uint? && !o.Int? ==> ReadUint64(b).Err?
    ensures o.Single? ==> ReadUint64(b) == if o.lead < 0x80 then Ok((o.lead, b[1..])) else Err(ErrJson)
    ensures o.Uint? ==> ReadUint64(b) == ReadBE(b, Width(o.k))
    ensures o.Int? ==> ReadUint64(b) == (Widths(); ReadNonNegative(b, Width(o.k)))
  {
    Widths();
    hide Width, ReadBE, ReadNonNegative, ToBE, Pow256;
  }

  /** Numbers of every width read as what they are, signed ones unless negative, and nothing else does. */
  lemma NumbersRead(o: Object, rest: Bytes)
    requires Formed(o)
    ensures Natural(o).Some? ==> ReadUint64(Encode(o) + rest) == Ok((Natural(o).value, rest))
    ensures Natural(o).None? ==> ReadUint64(Encode(o) + rest).Err?
  {
    hide ReadUint64, ReadBE, Width, ToBE, FromBE, Pow256, EncodeAll;
    var b := Encode(o) + rest;
    assert b != [] && b[0] == Head(o)[0];
    LeadReads(o, b);
    if o.Single? {
      assert Contents(o) == [] && Encode(o) == Head(o) + [];
      assert b[1..] == rest;
    } else if o.Uint? || o.Int? {
      assert Contents(o) == o.payload && Encode(o) == Head(o) + o.payload;
      assert b == [b[0]] + o.payload + rest;
      NumberAfterLead(b[0], o.payload, rest);
      Widths();
      assert |o.payload| == Width(o.k) && o.payload != [] && b[1] == o.payload[0];
    }
  }

  /** Lists and binaries of every format read as what they are. */
  lemma HeadersRead(o: Object, rest: Bytes)
    requires Formed(o)
    ensures o.FixArray? || o.Array? ==> ReadArrayHeader(Encode(o) + rest) == Ok((|o.items|, EncodeAll(o.items) + rest))
    ensures o.FixMap? || o.Map? ==> ReadMapHeader(Encode(o) + rest) == Ok((|o.items| / 2, EncodeAll(o.items) + rest))
    ensures !o.FixArray? && !o.Array? ==> ReadArrayHeader(Encode(o) + rest).Err?
    ensures !o.FixMap? && !o.Map? ==> ReadMapHeader(Encode(o) + rest).Err?
  {
    var b, after := Encode(o) + rest, Contents(o) + rest;
    assert b == Head(o) + after && b != [] && b[0] == Head(o)[0];
    if o.FixArray? || o.FixMap? {
      assert b[1..] == after;
    } else if o.Array? {
      CountedHead(0xdc + o.k, |o.items|, 2 * Width(o.k), after);
    } else if o.Map? {
      CountedHead(0xde + o.k, |o.items| / 2, 2 * Width(o.k), after);
    }
    hide Encode, Contents, ReadArrayHeader, ReadMapHeader, ReadBE, Width, ToBE, Pow256, EncodeAll, AllFormed;
    LeadLists(o, b);
    Widths();
  }

  lemma LeadLists(o: Object, b: Bytes)
    requires Formed(o) && b != [] && b[0] == Head(o)[0]
    ensures o.FixArray? ==> ReadArrayHeader(b) == Ok((|o.items|, b[1..]))
    ensures o.FixMap? ==> ReadMapHeader(b) == Ok((|o.items| / 2, b[1..]))
    ensures o.Array? ==> ReadArrayHeader(b) == ReadBE(b, 2 * Width(o.k))
    ensures o.Map? ==> ReadMapHeader(b) == ReadBE(b, 2 * Width(o.k))
    ensures !o.FixArray? && !o.Array? ==> ReadArrayHeader(b).Err?
    ensures !o.FixMap? && !o.Map? ==> ReadMapHeader(b).Err?
  {
    Widths();
    hide Width, ReadBE, ToBE, Pow256, AllFormed;
  }
}
