// The host's flat key-value store, and the typed view of it that the rest of
// the model works on (sdk state calls and the accessors of utils.go).

module StateStore {
  import opened Wrappers
  import opened Int64
  import opened Bytes
  import opened Text
  import opened Types
  import opened Keys
  import opened State
  import opened Accounts
  import opened BalanceCodec
  import opened RecordCodec
  import opened SigningDataCodec

  /** The state call: an absent key reads as the empty string. */
  function Fetch(data: map<string, Bytes>, k: Key): Bytes {
    if Render(k) in data then data[Render(k)] else []
  }

  const OBSERVED_MARK: Bytes := [0x31]

  /** The stored bytes under one key agree with the typed view. */
  ghost predicate Holds(v: State, k: Key, bs: Bytes) {
    match k
    case BalanceKey(a) => bs == Compact(GetBal(v.balances, a)) && (a in v.balances ==> v.balances[a] != 0)
    case ObservedKey(o) => bs == if o in v.observed then OBSERVED_MARK else []
    case UtxoKey(id) => bs == if id in v.utxos then UtxoBytes(v.utxos[id]) else []
    case TxSpendKey(t) =>
      && (t in v.txSpends ==> Encodable(v.txSpends[t]))
      && bs == if t in v.txSpends then SigningDataBytes(v.txSpends[t]) else []
    case BlockKey(h) => bs == if h in v.headers then v.headers[h] else []
    case UtxoRegistryKey => RegistryOfBytes(bs) == Ok(v.utxoList)
    case UtxoLastIdKey =>
      if |bs| == 2 then v.confirmedNextId == bs[0] && v.unconfirmedNextId == bs[1]
      else v.confirmedNextId == UTXO_CONFIRMED_POOL_START && v.unconfirmedNextId == 0
    case TxSpendsRegistryKey => TxSpendsOfBytes(bs) == Ok(v.txSpendsList)
    case SupplyKey => if bs == [] then v.supply == SystemSupply(0, 0, 0, 0) else SupplyOfBytes(bs) == Ok(v.supply)
    case LastHeightKey =>
      if bs == [] then v.lastHeight == None
      else v.lastHeight.Some? && ParseUint32(FromAscii(bs)) == v.lastHeight
    case RouterContractIdKey => bs == v.router
    case _ => true
  }

  ghost predicate Represents(data: map<string, Bytes>, v: State) {
    forall k: Key :: Holds(v, k, Fetch(data, k))
  }

  /** An empty store represents the initial state. */
  lemma EmptyStore()
    ensures Represents(map[], EmptyState())
  {
    CompactShape(0);
    RegistryRoundTrip([]);
    TxSpendsRoundTrip([]);
  }

  /** Writing under one key leaves the bytes under every other key alone. */
  lemma WriteFrame(data: map<string, Bytes>, k: Key, value: Bytes, l: Key)
    ensures Fetch(data[Render(k) := value], l) == if l == k then value else Fetch(data, l)
  {
    RenderInjective(k, l);
  }

  lemma DeleteFrame(data: map<string, Bytes>, k: Key, l: Key)
    ensures Fetch(data - {Render(k)}, l) == if l == k then [] else Fetch(data, l)
  {
    RenderInjective(k, l);
  }

  /** The refinement step: a flat write under k takes v to v' when the bytes written are those of
      v' at k and v' agrees with v at every other key. */
  lemma WriteRefines(data: map<string, Bytes>, v: State, v': State, k: Key, value: Bytes)
    requires Represents(data, v) && Holds(v', k, value)
    requires forall l: Key, bs: Bytes :: l != k && Holds(v, l, bs) ==> Holds(v', l, bs)
    ensures Represents(data[Render(k) := value], v')
  {
    hide Holds, Render;
    var data' := data[Render(k) := value];
    forall l: Key ensures Holds(v', l, Fetch(data', l)) {
      WriteFrame(data, k, value, l);
      assert Holds(v, l, Fetch(data, l));
    }
  }

  lemma DeleteRefines(data: map<string, Bytes>, v: State, v': State, k: Key)
    requires Represents(data, v) && Holds(v', k, [])
    requires forall l: Key, bs: Bytes :: l != k && Holds(v, l, bs) ==> Holds(v', l, bs)
    ensures Represents(data - {Render(k)}, v')
  {
    hide Holds, Render;
    var data' := data - {Render(k)};
    forall l: Key ensures Holds(v', l, Fetch(data', l)) {
      DeleteFrame(data, k, l);
      assert Holds(v, l, Fetch(data, l));
    }
  }

  class StateStore {
    var data: map<string, Bytes>
    ghost var view: State

    ghost predicate Valid()
      reads this
    {
      Represents(data, view)
    }

    constructor ()
      ensures Valid() && view == EmptyState()
    {
      data := map[];
      view := EmptyState();
      EmptyStore();
    }

    method Get(k: Key) returns (value: Bytes)
      requires Valid()
      ensures value == Fetch(data, k) && Holds(view, k, value)
    {
      value := if Render(k) in data then data[Render(k)] else [];
      assert value == Fetch(data, k);
    }

    method Set(k: Key, value: Bytes, ghost v: State)
      requires Valid() && Holds(v, k, value)
      requires forall l: Key, bs: Bytes :: l != k && Holds(view, l, bs) ==> Holds(v, l, bs)
      modifies this
      ensures Valid() && view == v
    {
      WriteRefines(data, view, v, k, value);
      data := data[Render(k) := value];
      view := v;
    }

    method Delete(k: Key, ghost v: State)
      requires Valid() && Holds(v, k, [])
      requires forall l: Key, bs: Bytes :: l != k && Holds(view, l, bs) ==> Holds(v, l, bs)
      modifies this
      ensures Valid() && view == v
    {
      DeleteRefines(data, view, v, k);
      data := data - {Render(k)};
      view := v;
    }

    /** The host discards the writes of a call that failed. */
    method Rollback(saved: map<string, Bytes>, ghost v: State)
      requires Represents(saved, v)
      modifies this
      ensures Valid() && view == v && data == saved
    {
      data := saved;
      view := v;
    }

    // -------------------------------------------------------------- balances

    method GetAccBal(account: string) returns (bal: Int64)
      requires Valid()
      ensures bal == GetBal(view.balances, account)
    {
      var s := Get(BalanceKey(account));
      CompactRoundTrip(GetBal(view.balances, account));
      CompactShape(GetBal(view.balances, account));
      if s == [] {
        return 0;
      }
      bal := ReadCompact(s);
    }

    method SetAccBal(account: string, newBal: Int64)
      requires Valid()
      modifies this
      ensures Valid() && view == old(view).(balances := SetBal(old(view).balances, account, newBal))
    {
      ghost var v := view.(balances := SetBal(view.balances, account, newBal));
      CompactShape(newBal);
      hide Compact;
      if newBal == 0 {
        Delete(BalanceKey(account), v);
        return;
      }
      Set(BalanceKey(account), Compact(newBal), v);
    }

    // -------------------------------------------------------------- UTXO records

    method LoadUtxo(id: Byte) returns (r: Result<StoredUtxo>)
      requires Valid()
      ensures r == if id in view.utxos then Ok(view.utxos[id]) else Err(ErrStateAccess)
    {
      var raw := Get(UtxoKey(id));
      if raw == [] {
        return Err(ErrStateAccess);
      }
      ghost var u := view.utxos[id];
      UtxoRoundTrip(u);
      assert u.Stored() == u;
      var parsed := UnmarshalUtxo(raw);
      if parsed.Err? {
        return Err(ErrStateAccess);
      }
      r := Ok(parsed.value);
    }

    method SaveUtxo(id: Byte, u: Utxo)
      requires Valid() && u.Storable()
      modifies this
      ensures Valid() && view == old(view).(utxos := old(view).utxos[id := u.Stored()])
    {
      var bytes := MarshalUtxo(u);
      assert UtxoBytes(u) == UtxoBytes(u.Stored());
      hide UtxoBytes;
      Set(UtxoKey(id), bytes, view.(utxos := view.utxos[id := u.Stored()]));
    }

    method DeleteUtxo(id: Byte)
      requires Valid()
      modifies this
      ensures Valid() && view == old(view).(utxos := old(view).utxos - {id})
    {
      Delete(UtxoKey(id), view.(utxos := view.utxos - {id}));
    }

    method IsFree(id: Byte) returns (free: bool)
      requires Valid()
      ensures free <==> id !in view.utxos
    {
      var existing := Get(UtxoKey(id));
      free := existing == [];
    }

    // -------------------------------------------------------------- observed outpoints

    method IsObserved(o: Outpoint) returns (seen: bool)
      requires Valid()
      ensures seen <==> o in view.observed
    {
      var mark := Get(ObservedKey(o));
      seen := mark != [];
    }

    method SetObserved(o: Outpoint)
      requires Valid()
      modifies this
      ensures Valid() && view == old(view).(observed := old(view).observed + {o})
    {
      Set(ObservedKey(o), OBSERVED_MARK, view.(observed := view.observed + {o}));
    }

    // -------------------------------------------------------------- pending spends

    method GetTxSpend(t: TxId) returns (r: Result<Option<SigningData>>)
      requires Valid()
      ensures r == Ok(if t in view.txSpends then Some(view.txSpends[t]) else None)
    {
      var raw := Get(TxSpendKey(t));
      if |raw| < 1 {
        assert t !in view.txSpends;
        return Ok(None);
      }
      SigningDataRoundTrip(view.txSpends[t]);
      var decoded := UnmarshalMsg(raw);
      if decoded.Err? {
        return Err(ErrJson);
      }
      r := Ok(Some(decoded.value.0));
    }

    method SetTxSpend(t: TxId, sd: SigningData)
      requires Valid() && Encodable(sd)
      modifies this
      ensures Valid() && view == old(view).(txSpends := old(view).txSpends[t := sd])
    {
      var bytes := MarshalMsg(sd, []);
      assert bytes == SigningDataBytes(sd);
      hide SigningDataBytes, Encodable;
      Set(TxSpendKey(t), bytes, view.(txSpends := view.txSpends[t := sd]));
    }

    method DeleteTxSpend(t: TxId)
      requires Valid()
      modifies this
      ensures Valid() && view == old(view).(txSpends := old(view).txSpends - {t})
    {
      hide SigningDataBytes, Encodable;
      Delete(TxSpendKey(t), view.(txSpends := view.txSpends - {t}));
    }

    // -------------------------------------------------------------- headers

    method GetHeader(h: Uint32) returns (raw: Bytes)
      requires Valid()
      ensures raw == if h in view.headers then view.headers[h] else []
    {
      raw := Get(BlockKey(h));
    }

    method SetHeader(h: Uint32, raw: Bytes)
      requires Valid()
      modifies this
      ensures Valid() && view == old(view).(headers := old(view).headers[h := raw])
    {
      Set(BlockKey(h), raw, view.(headers := view.headers[h := raw]));
    }

    method LastHeightFromState() returns (r: Option<Uint32>)
      requires Valid()
      ensures r == view.lastHeight
    {
      var raw := Get(LastHeightKey);
      r := if raw == [] then None else ParseUint32(FromAscii(raw));
    }

    method LastHeightToState(h: Uint32)
      requires Valid()
      modifies this
      ensures Valid() && view == old(view).(lastHeight := Some(h))
    {
      var text := FormatUint(h, 10);
      FormattedIsAscii(h);
      HeightTextRoundTrip(h);
      Set(LastHeightKey, Ascii(text), view.(lastHeight := Some(h)));
    }

    // -------------------------------------------------------------- singletons

    method GetRouter() returns (id: Bytes)
      requires Valid()
      ensures id == view.router
    {
      id := Get(RouterContractIdKey);
    }

    method SetRouter(id: Bytes)
      requires Valid()
      modifies this
      ensures Valid() && view == old(view).(router := id)
    {
      Set(RouterContractIdKey, id, view.(router := id));
    }

    method SupplyFromState() returns (r: Result<SystemSupply>)
      requires Valid()
      ensures r == Ok(view.supply)
    {
      var raw := Get(SupplyKey);
      if |raw| == 0 {
        return Ok(SystemSupply(0, 0, 0, 0));
      }
      r := SupplyOfBytes(raw);
    }

    method SaveSupplyToState(supply: SystemSupply)
      requires Valid()
      modifies this
      ensures Valid() && view == old(view).(supply := supply)
    {
      SupplyRoundTrip(supply);
      hide SupplyBytes, SupplyOfBytes;
      Set(SupplyKey, SupplyBytes(supply), view.(supply := supply));
    }
  }

  lemma FormattedIsAscii(n: nat)
    ensures IsAscii(FormatUint(n, 10)) && FormatUint(n, 10) != []
  {
    var s := FormatUint(n, 10);
    forall i | 0 <= i < |s| ensures s[i] as int < 128 {
      assert s[i] in s;
    }
  }
}
