// The fixed-width and length-prefixed encodings of utils.go.

module RecordCodec {
  import opened Wrappers
  import opened Bytes
  import opened Text
  import opened Types

  // ------------------------------------------------ UTXO registry, 9 bytes an entry

  function EntryBytes(e: UtxoRegistryEntry): (bs: Bytes)
    ensures |bs| == 9
  {
    [e.id] + Int64ToBytes(e.amount)
  }

  function RegistryBytes(r: UtxoRegistry): (bs: Bytes)
    ensures |bs| == 9 * |r|
  {
    if r == [] then [] else RegistryBytes(r[..|r| - 1]) + EntryBytes(r[|r| - 1])
  }

  function EntryAt(data: Bytes, i: nat): UtxoRegistryEntry
    requires 9 * i + 9 <= |data|
  {
    UtxoRegistryEntry(data[9 * i], BytesToInt64(data[9 * i + 1..9 * i + 9]))
  }

  function RegistryOfBytes(data: Bytes): (r: Result<UtxoRegistry>)
  {
    if |data| % 9 != 0 then Err(ErrStateAccess)
    else Ok(seq(|data| / 9, i requires 0 <= i < |data| / 9 => EntryAt(data, i)))
  }

  method MarshalUtxoRegistry(r: UtxoRegistry) returns (bs: Bytes)
    ensures bs == RegistryBytes(r)
  {
    hide Int64ToBytes;
    var buf := MakeBuffer(|r| * 9);
    for i := 0 to |r|
      invariant buf[..9 * i] == RegistryBytes(r[..i])
    {
      var e := r[i];
      buf[i * 9] := e.id;
      CopyInto(buf, i * 9 + 1, Int64ToBytes(e.amount));
      assert buf[9 * i..9 * (i + 1)] == EntryBytes(e);
      assert buf[..9 * (i + 1)] == buf[..9 * i] + buf[9 * i..9 * (i + 1)];
      assert r[..i + 1][..i] == r[..i];
    }
    assert r[..|r|] == r;
    assert buf[..9 * |r|] == buf[..];
    bs := buf[..];
  }

  method UnmarshalUtxoRegistry(data: Bytes) returns (r: Result<UtxoRegistry>)
    ensures r == RegistryOfBytes(data)
  {
    if |data| % 9 != 0 {
      return Err(ErrStateAccess);
    }
    var out := new UtxoRegistryEntry[|data| / 9](i => UtxoRegistryEntry(0, 0));
    for i := 0 to out.Length
      invariant forall j :: 0 <= j < i ==> out[j] == EntryAt(data, j)
    {
      out[i] := UtxoRegistryEntry(data[i * 9], BytesToInt64(data[i * 9 + 1..i * 9 + 9]));
    }
    assert out[..] == RegistryOfBytes(data).value;
    r := Ok(out[..]);
  }

  lemma {:induction false} RegistryEntryBytes(r: UtxoRegistry, i: nat)
    requires i < |r|
    ensures RegistryBytes(r)[9 * i..9 * i + 9] == EntryBytes(r[i])
  {
    if i < |r| - 1 {
      RegistryEntryBytes(r[..|r| - 1], i);
      assert RegistryBytes(r)[9 * i..9 * i + 9] == RegistryBytes(r[..|r| - 1])[9 * i..9 * i + 9];
    }
  }

  /** Decoding an encoded registry gives it back, entry by entry and in order. */
  lemma RegistryRoundTrip(r: UtxoRegistry)
    ensures RegistryOfBytes(RegistryBytes(r)) == Ok(r)
  {
    var data := RegistryBytes(r);
    forall i | 0 <= i < |r| ensures EntryAt(data, i) == r[i] {
      RegistryEntryBytes(r, i);
      var slice := data[9 * i..9 * i + 9];
      assert slice[0] == data[9 * i] && slice[1..] == data[9 * i + 1..9 * i + 9];
      assert slice[1..] == Int64ToBytes(r[i].amount);
      Int64RoundTrip(r[i].amount);
    }
    assert RegistryOfBytes(data).value == r;
  }

  lemma EntryBytesAt(data: Bytes, i: nat)
    requires 9 * i + 9 <= |data|
    ensures EntryBytes(EntryAt(data, i)) == data[9 * i..9 * i + 9]
  {
    BytesRoundTrip(data[9 * i + 1..9 * i + 9]);
    assert data[9 * i..9 * i + 9] == [data[9 * i]] + data[9 * i + 1..9 * i + 9];
  }

  lemma RegistryPrefix(data: Bytes, n: nat)
    requires |data| % 9 == 0 && 9 * n <= |data|
    ensures RegistryOfBytes(data[..9 * n]).value == RegistryOfBytes(data).value[..n]
  {
    forall i | 0 <= i < n ensures EntryAt(data[..9 * n], i) == EntryAt(data, i) {
      assert data[..9 * n][9 * i + 1..9 * i + 9] == data[9 * i + 1..9 * i + 9];
    }
  }

  /** Every accepted byte string is the encoding of what was read from it. */
  lemma {:induction false} RegistryBytesRoundTrip(data: Bytes)
    requires |data| % 9 == 0
    ensures RegistryBytes(RegistryOfBytes(data).value) == data
    decreases |data|
  {
    hide EntryAt, EntryBytes;
    if data != [] {
      var n := |data| / 9 - 1;
      RegistryBytesRoundTrip(data[..9 * n]);
      RegistryPrefix(data, n);
      EntryBytesAt(data, n);
      assert data == data[..9 * n] + data[9 * n..9 * n + 9];
    }
  }

  // -------------------------------------------- pending-spend list, 32 bytes an entry

  function TxSpendsBytes(ts: TxSpendsRegistry): (bs: Bytes)
    ensures |bs| == 32 * |ts|
  {
    if ts == [] then [] else TxSpendsBytes(ts[..|ts| - 1]) + TxIdBytes(ts[|ts| - 1])
  }

  function TxSpendsOfBytes(data: Bytes): (r: Result<TxSpendsRegistry>)
  {
    if |data| % 32 != 0 then Err(ErrStateAccess)
    else Ok(seq(|data| / 32, i requires 0 <= i < |data| / 32 => TxIdOfBytes(data[32 * i..32 * i + 32])))
  }

  method MarshalTxSpendsRegistry(ts: TxSpendsRegistry) returns (bs: Bytes)
    ensures bs == TxSpendsBytes(ts)
  {
    var buf := MakeBuffer(|ts| * 32);
    for i := 0 to |ts|
      invariant buf[..32 * i] == TxSpendsBytes(ts[..i])
    {
      CopyInto(buf, i * 32, TxIdBytes(ts[i]));
      assert buf[..32 * (i + 1)] == buf[..32 * i] + TxIdBytes(ts[i]);
      assert ts[..i + 1][..i] == ts[..i];
    }
    assert ts[..|ts|] == ts;
    assert buf[..32 * |ts|] == buf[..];
    bs := buf[..];
  }

  method UnmarshalTxSpendsRegistry(data: Bytes) returns (r: Result<TxSpendsRegistry>)
    ensures r == TxSpendsOfBytes(data)
  {
    if |data| % 32 != 0 {
      return Err(ErrStateAccess);
    }
    var out := new TxId[|data| / 32](i => ZeroTxId());
    for i := 0 to out.Length
      invariant forall j :: 0 <= j < i ==> out[j] == TxIdOfBytes(data[32 * j..32 * j + 32])
    {
      out[i] := TxIdOfBytes(data[i * 32..i * 32 + 32]);
    }
    assert out[..] == TxSpendsOfBytes(data).value;
    r := Ok(out[..]);
  }

  lemma {:induction false} TxSpendsEntryBytes(ts: TxSpendsRegistry, i: nat)
    requires i < |ts|
    ensures TxSpendsBytes(ts)[32 * i..32 * i + 32] == TxIdBytes(ts[i])
  {
    if i < |ts| - 1 {
      TxSpendsEntryBytes(ts[..|ts| - 1], i);
      assert TxSpendsBytes(ts)[32 * i..32 * i + 32] == TxSpendsBytes(ts[..|ts| - 1])[32 * i..32 * i + 32];
    }
  }

  lemma TxSpendsRoundTrip(ts: TxSpendsRegistry)
    ensures TxSpendsOfBytes(TxSpendsBytes(ts)) == Ok(ts)
  {
    hide TxSpendsBytes, TxIdBytes, TxIdOfBytes;
    forall i | 0 <= i < |ts| ensures TxIdOfBytes(TxSpendsBytes(ts)[32 * i..32 * i + 32]) == ts[i] {
      TxSpendsEntryBytes(ts, i);
      TxIdRoundTrip(ts[i]);
    }
    assert TxSpendsOfBytes(TxSpendsBytes(ts)).value == ts;
  }

  // ----------------------------------------------------------- supply and counters

  function SupplyBytes(s: SystemSupply): (bs: Bytes)
    ensures |bs| == 32
  {
    Int64ToBytes(s.activeSupply) + Int64ToBytes(s.userSupply)
    + Int64ToBytes(s.feeSupply) + Int64ToBytes(s.baseFeeRate)
  }

  function SupplyOfBytes(data: Bytes): (r: Result<SystemSupply>)
  {
    if |data| != 32 then Err(ErrStateAccess)
    else Ok(SystemSupply(BytesToInt64(data[0..8]), BytesToInt64(data[8..16]),
                         BytesToInt64(data[16..24]), BytesToInt64(data[24..32])))
  }

  lemma SupplyRoundTrip(s: SystemSupply)
    ensures SupplyOfBytes(SupplyBytes(s)) == Ok(s)
  {
    var data := SupplyBytes(s);
    assert data[0..8] == Int64ToBytes(s.activeSupply);
    assert data[8..16] == Int64ToBytes(s.userSupply);
    assert data[16..24] == Int64ToBytes(s.feeSupply);
    assert data[24..32] == Int64ToBytes(s.baseFeeRate);
    Int64RoundTrip(s.activeSupply);
    Int64RoundTrip(s.userSupply);
    Int64RoundTrip(s.feeSupply);
    Int64RoundTrip(s.baseFeeRate);
  }

  lemma SupplyBytesRoundTrip(data: Bytes)
    requires |data| == 32
    ensures SupplyBytes(SupplyOfBytes(data).value) == data
  {
    BytesRoundTrip(data[0..8]);
    BytesRoundTrip(data[8..16]);
    BytesRoundTrip(data[16..24]);
    BytesRoundTrip(data[24..32]);
    assert data == data[0..8] + data[8..16] + data[16..24] + data[24..32];
  }

  // ------------------------------------------------------------------ UTXO record

  /** The length byte that byte(len(x)) leaves: lengths above 255 are truncated. */
  function LengthByte(bs: Bytes): Byte {
    |bs| % 256
  }

  function UtxoBytes(u: Utxo): (bs: Bytes)
    ensures |bs| == 46 + |u.pkScript| + |u.TagBytes()|
  {
    UtxoHead(u) + u.pkScript + [LengthByte(u.TagBytes())] + u.TagBytes()
  }

  function UtxoHead(u: Utxo): (bs: Bytes)
    ensures |bs| == 45
  {
    TxIdBytes(u.txId) + Uint32ToBytes(u.vout) + Int64ToBytes(u.amount) + [LengthByte(u.pkScript)]
  }

  method MarshalUtxo(u: Utxo) returns (bs: Bytes)
    ensures bs == UtxoBytes(u)
  {
    var tag := u.TagBytes();
    var buf := MakeBuffer(32 + 4 + 8 + 1 + |u.pkScript| + 1 + |tag|);
    var off := 0;
    CopyInto(buf, off, TxIdBytes(u.txId));
    off := off + 32;
    CopyInto(buf, off, Uint32ToBytes(u.vout));
    assert buf[..36] == TxIdBytes(u.txId) + Uint32ToBytes(u.vout);
    off := off + 4;
    CopyInto(buf, off, Int64ToBytes(u.amount));
    off := off + 8;
    buf[off] := LengthByte(u.pkScript);
    off := off + 1;
    assert buf[..45] == UtxoHead(u);
    CopyInto(buf, off, u.pkScript);
    off := off + |u.pkScript|;
    buf[off] := LengthByte(tag);
    off := off + 1;
    assert buf[..off] == UtxoHead(u) + u.pkScript + [LengthByte(tag)];
    CopyInto(buf, off, tag);
    bs := buf[..];
  }

  function UnmarshalUtxo(data: Bytes): (r: Result<Utxo>)
    ensures r.Ok? ==> r.value.tag.Some? && r.value.Storable()
  {
    if |data| < 46 then Err(ErrStateAccess) else
    var txId := TxIdOfBytes(data[0..32]);
    var vout := BytesToUint32(data[32..36]);
    var amount := BytesToInt64(data[36..44]);
    var pkLen := data[44];
    if 45 + pkLen > |data| then Err(ErrStateAccess) else
    var pkScript := data[45..45 + pkLen];
    var off := 45 + pkLen;
    if off >= |data| then Err(ErrStateAccess) else
    var tagLen := data[off];
    if off + 1 + tagLen > |data| then Err(ErrStateAccess) else
    Ok(Utxo(txId, vout, amount, pkScript, Some(data[off + 1..off + 1 + tagLen])))
  }

  lemma UtxoHeadFields(u: Utxo, data: Bytes)
    requires |data| >= 46 && data[..45] == UtxoHead(u)
    ensures TxIdOfBytes(data[0..32]) == u.txId
    ensures BytesToUint32(data[32..36]) == u.vout
    ensures BytesToInt64(data[36..44]) == u.amount
    ensures data[44] == LengthByte(u.pkScript)
  {
    var head := data[..45];
    assert data[0..32] == head[0..32] == TxIdBytes(u.txId);
    assert data[32..36] == head[32..36] == Uint32ToBytes(u.vout);
    assert data[36..44] == head[36..44] == Int64ToBytes(u.amount);
    assert data[44] == head[44];
    TxIdRoundTrip(u.txId);
    Uint32RoundTrip(u.vout);
    Int64RoundTrip(u.amount);
  }

  /** A stored record reads back (nil tag normalised to empty) exactly when the script and
      the tag fit their one-byte length fields. */
  lemma UtxoRoundTrip(u: Utxo)
    ensures UnmarshalUtxo(UtxoBytes(u)) == Ok(u.Stored()) <==> u.Storable()
  {
    assert u.Stored().Storable() <==> u.Storable();
    if u.Storable() {
      StoredReadsBack(u);
    }
    hide UnmarshalUtxo, UtxoBytes;
  }

  lemma StoredReadsBack(u: Utxo)
    requires u.Storable()
    ensures UnmarshalUtxo(UtxoBytes(u)) == Ok(u.Stored())
  {
    var data := UtxoBytes(u);
    hide UtxoHead, TxIdOfBytes, BytesToUint32, BytesToInt64;
    assert data[..45] == UtxoHead(u);
    UtxoHeadFields(u, data);
    var off := 45 + |u.pkScript|;
    assert data[45..off] == u.pkScript;
    assert data[off] == LengthByte(u.TagBytes());
    assert data[off + 1..off + 1 + |u.TagBytes()|] == u.TagBytes();
  }

  lemma HeadReencodes(data: Bytes)
    requires UnmarshalUtxo(data).Ok?
    ensures UtxoHead(UnmarshalUtxo(data).value) == data[..45]
  {
    TxIdBytesRoundTrip(data[0..32]);
    Uint32BytesRoundTrip(data[32..36]);
    BytesRoundTrip(data[36..44]);
    assert data[..45] == data[0..32] + data[32..36] + data[36..44] + [data[44]];
  }

  /** Whatever bytes are read, an accepted record re-encodes to a prefix of them. */
  lemma UtxoReencodes(data: Bytes)
    requires UnmarshalUtxo(data).Ok?
    ensures UtxoBytes(UnmarshalUtxo(data).value) <= data
  {
    HeadReencodes(data);
    hide UtxoHead;
    var u := UnmarshalUtxo(data).value;
    var off := 45 + |u.pkScript|;
    var end := off + 1 + |u.TagBytes()|;
    assert data[..end] == data[..45] + data[45..off] + [data[off]] + data[off + 1..end];
  }
}
