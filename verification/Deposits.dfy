// HandleMap as imperative code over the loaded state (mapping.go, proof.go).

module Deposits {
  import opened Wrappers
  import opened Int64
  import opened Bytes
  import opened Text
  import opened Types
  import opened World
  import opened Accounts
  import opened Spend
  import opened State
  import opened Pools
  import opened Promotion
  import opened StateStore
  import opened Handlers
  import opened Mapping
  import Proof

  method CheckTransaction(w: Btc, store: StateStore, req: MapRequest) returns (err: Option<Error>)
    requires store.Valid()
    ensures err == VerifyTransaction(w, store.view.headers, req)
  {
    var rawHeader := store.GetHeader(req.blockHeight);
    var merkleProof := Proof.MerkleProofFromHex(req.merkleProofHex);
    if merkleProof.Err? {
      return Some(merkleProof.error);
    }
    var ok := Proof.VerifyMerkleProof(w.doubleHash, TxHash(w, req.tx), req.txIndex, merkleProof.value,
      HeaderRoot(rawHeader));
    err := if ok then None else Some(ErrInput);
  }

  method IsForVscAcc(w: Btc, out: TxOut, registry: map<string, AddressMetadata>) returns (a: Option<string>)
    ensures a == RegisteredAddress(w, out, registry)
  {
    var addrs := w.addrsOf(out.pkScript);
    if addrs.None? {
      return None;
    }
    for i := 0 to |addrs.value|
      invariant FirstRegistered(addrs.value, registry) == FirstRegistered(addrs.value[i..], registry)
    {
      assert addrs.value[i..][1..] == addrs.value[i + 1..];
      if addrs.value[i] in registry {
        return Some(addrs.value[i]);
      }
    }
    a := None;
  }

  lemma {:induction false} MatchingGrows(w: Btc, registry: map<string, AddressMetadata>, txId: TxId, outs: seq<TxOut>,
                                         k: nat)
    requires k <= |outs| <= 0x1_0000_0000
    ensures |MatchingOutputs(w, registry, txId, outs[..k])| <= |MatchingOutputs(w, registry, txId, outs)|
  {
    if k == |outs| {
      assert outs[..k] == outs;
    } else {
      var front := outs[..|outs| - 1];
      MatchingGrows(w, registry, txId, front, k);
      assert front[..k] == outs[..k];
    }
  }

  /** The slots after reading the first n outputs, and the number found. */
  ghost function IndexedAfter(w: Btc, registry: map<string, AddressMetadata>, tx: MsgTx,
                              n: nat): (r: (seq<Option<Utxo>>, nat))
    requires n <= |tx.txOut| <= 0x1_0000_0000
  {
    var found := MatchingOutputs(w, registry, TxID(w, tx), tx.txOut[..n]);
    (Slots(found, |registry|), |found|)
  }

  lemma IndexedBounds(w: Btc, registry: map<string, AddressMetadata>, tx: MsgTx)
    requires |tx.txOut| <= 0x1_0000_0000
    ensures IndexedAfter(w, registry, tx, 0) == (seq(|registry|, j => None), 0)
    ensures var found := MatchingOutputs(w, registry, TxID(w, tx), tx.txOut);
      IndexedAfter(w, registry, tx, |tx.txOut|) == (Slots(found, |registry|), |found|)
  {
    assert tx.txOut[..|tx.txOut|] == tx.txOut;
    assert MatchingOutputs(w, registry, TxID(w, tx), tx.txOut[..0]) == [];
    assert Slots([], |registry|) == seq(|registry|, j => None);
  }

  lemma IndexedGrow(w: Btc, registry: map<string, AddressMetadata>, tx: MsgTx, n: nat)
    requires n <= |tx.txOut| <= 0x1_0000_0000
    ensures IndexedAfter(w, registry, tx, n).1 <= |MatchingOutputs(w, registry, TxID(w, tx), tx.txOut)|
  {
    MatchingGrows(w, registry, TxID(w, tx), tx.txOut, n);
  }

  /** One output more: a slot is filled, or one too many is found, when its address is registered. */
  lemma IndexStep(w: Btc, registry: map<string, AddressMetadata>, tx: MsgTx, n: nat)
    requires n < |tx.txOut| <= 0x1_0000_0000
    ensures var (slots, i) := IndexedAfter(w, registry, tx, n);
      var (slots', i') := IndexedAfter(w, registry, tx, n + 1);
      var a := RegisteredAddress(w, tx.txOut[n], registry);
      && (a.None? ==> slots' == slots && i' == i)
      && (a.Some? ==> i' == i + 1)
      && (a.Some? && i < |slots| ==>
        slots' == slots[i := Some(DepositUtxo(TxID(w, tx), n, tx.txOut[n], registry[a.value].tag))])
  {
    var txId, a := TxID(w, tx), RegisteredAddress(w, tx.txOut[n], registry);
    assert tx.txOut[..n + 1][..n] == tx.txOut[..n];
    var found := MatchingOutputs(w, registry, txId, tx.txOut[..n]);
    var found' := MatchingOutputs(w, registry, txId, tx.txOut[..n + 1]);
    hide Slots, MatchingOutputs, TxID, DepositUtxo, RegisteredAddress;
    if a.Some? {
      var utxo := DepositUtxo(txId, n, tx.txOut[n], registry[a.value].tag);
      assert found' == found + [utxo];
      SlotsStep(found, utxo, |registry|);
    } else {
      assert found' == found;
    }
  }

  // ---------------------------------------------------------------- crediting

  method IncAccBalance(store: StateStore, account: string, amount: Int64) returns (err: Option<Error>)
    requires store.Valid()
    modifies store
    ensures store.Valid()
    ensures match SafeAdd64(GetBal(old(store.view).balances, account), amount)
      case Ok(b) => err == None
        && store.view == old(store.view).(balances := SetBal(old(store.view).balances, account, b))
      case Err(e) => err == Some(e) && store.view == old(store.view)
  {
    var bal := store.GetAccBal(account);
    var newBal := SafeAdd64(bal, amount);
    if newBal.Err? {
      return Some(newBal.error);
    }
    store.SetAccBal(account, newBal.value);
    err := None;
  }

  /** The router's transfers, each a call of its own that is undone when it fails. */
  method CallRouter(w: Btc, store: StateStore, transfers: seq<(Env, TransferParams)>)
    requires store.Valid()
    modifies store
    ensures store.Valid()
    ensures store.view == old(store.view).(balances := RunTransfers(w, old(store.view).balances, transfers))
  {
    hide Transfer, Represents;
    ghost var before := store.view;
    for i := 0 to |transfers|
      invariant store.Valid() && store.view == before.(balances := store.view.balances)
      invariant RunTransfers(w, before.balances, transfers) == RunTransfers(w, store.view.balances, transfers[i..])
    {
      assert transfers[i..][0] == transfers[i] && transfers[i..][1..] == transfers[i + 1..];
      var saved := store.data;
      ghost var v := store.view;
      var err := HandleTransfer(w, store, transfers[i].0, transfers[i].1);
      if err.Some? {
        store.Rollback(saved, v);
      }
    }
  }

  class MappingState {
    const cs: ContractState
    const addressRegistry: map<string, AddressMetadata>

    constructor (cs: ContractState, addressRegistry: map<string, AddressMetadata>)
      ensures this.cs == cs && this.addressRegistry == addressRegistry
    {
      this.cs := cs;
      this.addressRegistry := addressRegistry;
    }

    /** One slot per registered address, filled from the front. */
    method IndexOutputs(w: Btc, tx: MsgTx) returns (r: Result<seq<Option<Utxo>>>)
      requires |tx.txOut| <= 0x1_0000_0000
      ensures r == Mapping.IndexOutputs(w, addressRegistry, tx)
    {
      hide Slots, MatchingOutputs, TxID, DepositUtxo, RegisteredAddress, IndexedAfter;
      IndexedBounds(w, addressRegistry, tx);
      var outputsForVsc: seq<Option<Utxo>> := seq(|addressRegistry|, j => None);
      var i := 0;
      for index := 0 to |tx.txOut|
        invariant i <= |outputsForVsc| == |addressRegistry|
        invariant (outputsForVsc, i) == IndexedAfter(w, addressRegistry, tx, index)
      {
        IndexStep(w, addressRegistry, tx, index);
        IndexedGrow(w, addressRegistry, tx, index + 1);
        var addr := IsForVscAcc(w, tx.txOut[index], addressRegistry);
        if addr.Some? {
          var utxo := DepositUtxo(TxID(w, tx), index, tx.txOut[index], addressRegistry[addr.value].tag);
          if i >= |outputsForVsc| {
            return Err(Trap);
          }
          outputsForVsc := outputsForVsc[i := Some(utxo)];
          i := i + 1;
        }
      }
      r := Ok(outputsForVsc);
    }

    /** The balance side of one deposit. The router id is looked up once per call. */
    method Credit(w: Btc, req: MapRequest, i: nat, metadata: AddressMetadata, amount: Int64, knownRouter: Bytes)
      returns (err: Option<Error>, routerId: Bytes)
      requires cs.store.Valid() && (knownRouter != [] ==> knownRouter == cs.store.view.router)
      modifies cs.store
      ensures cs.store.Valid() && (routerId != [] ==> routerId == old(cs.store.view).router)
      ensures match CreditBalances(w, old(cs.store.view), req, i, metadata, amount, false)
        case Ok(b) => err == None && cs.store.view == old(cs.store.view).(balances := b)
        case Err(e) => err == Some(e)
    {
      hide RunTransfers;
      routerId := knownRouter;
      match metadata.kind
      case MapDeposit =>
        var _ := IncAccBalance(cs.store, metadata.recipient, amount);
        err := None;
      case MapSwap(hasAssetOut) =>
        if routerId == [] {
          routerId := cs.store.GetRouter();
          if routerId == [] {
            return Some(ErrInitialization), routerId;
          }
        }
        if !hasAssetOut {
          return Some(ErrInput), routerId;
        }
        err := IncAccBalance(cs.store, req.env.sender, amount);
        if err.Some? {
          return Some(ErrStateAccess), routerId;
        }
        var call := if i < |req.calls| then req.calls[i] else RouterCall([], false);
        CallRouter(w, cs.store, call.transfers);
        err := if call.resultParses then None else Some(ErrJson);
    }

    /** One iteration of processUtxos: the new total and router id. */
    method CreditOutput(w: Btc, req: MapRequest, i: nat, slot: Option<Utxo>, totalMapped: Int64, knownRouter: Bytes)
      returns (r: Result<Int64>, routerId: Bytes)
      requires req.registry == addressRegistry
      requires cs.store.Valid() && Ready(cs.Live(), [slot])
      requires knownRouter != [] ==> knownRouter == cs.store.view.router
      modifies cs, cs.store
      ensures cs.store.Valid()
      ensures match CreditOne(w, Progress(old(cs.Live()), totalMapped), req, i, slot, false)
        case Ok(p) => r == Ok(p.total) && cs.Live() == p.state && (routerId != [] ==> routerId == cs.store.view.router)
        case Err(e) => r == Err(e)
    {
      hide Allocate, CreditBalances;
      routerId := knownRouter;
      if slot.None? {
        return Err(Trap), routerId;
      }
      var utxo := slot.value;
      assert utxo.Storable() by { assert [slot][0] == slot; }
      var addrs := w.addrsOf(utxo.pkScript);
      if addrs.None? {
        return Err(ErrInput), routerId;
      }
      if addrs.value == [] {
        return Err(Trap), routerId;
      }
      if addrs.value[0] !in addressRegistry {
        return Ok(totalMapped), routerId;
      }
      var alreadyObserved := cs.store.IsObserved(OutpointOf(utxo));
      if alreadyObserved {
        return Ok(totalMapped), routerId;
      }
      ghost var s0 := cs.Live();
      var internalId := cs.AllocateConfirmedId();
      if internalId.Err? {
        return Err(internalId.error), routerId;
      }
      cs.utxoList := cs.utxoList + [UtxoRegistryEntry(internalId.value, utxo.amount)];
      cs.store.SaveUtxo(internalId.value, utxo);
      cs.store.SetObserved(OutpointOf(utxo));
      ghost var s1 := Register(s0, Allocation(internalId.value, cs.confirmedNextId), utxo);
      assert cs.Live() == s1;
      SameBalances(w, cs.store.view, s1, req, i, addressRegistry[addrs.value[0]], utxo.amount);
      var err;
      err, routerId := Credit(w, req, i, addressRegistry[addrs.value[0]], utxo.amount, routerId);
      if err.Some? {
        return Err(err.value), routerId;
      }
      r := SafeAdd64(totalMapped, utxo.amount);
    }

    method ProcessUtxos(w: Btc, req: MapRequest, relevantUtxos: seq<Option<Utxo>>) returns (err: Option<Error>)
      requires req.registry == addressRegistry
      requires cs.store.Valid() && Ready(cs.Live(), relevantUtxos)
      modifies cs, cs.store
      ensures cs.store.Valid()
      ensures match Mapping.ProcessUtxos(w, old(cs.Live()), req, relevantUtxos, false)
        case Ok(s) => err == None && cs.Live() == s
        case Err(e) => err == Some(e)
    {
      hide CreditOne;
      var totalMapped: Int64 := 0;
      var routerId: Bytes := [];
      for i := 0 to |relevantUtxos|
        invariant cs.store.Valid() && Ready(cs.Live(), relevantUtxos)
        invariant routerId != [] ==> routerId == cs.store.view.router
        invariant CreditAll(w, Progress(old(cs.Live()), 0), req, relevantUtxos, 0, false)
               == CreditAll(w, Progress(cs.Live(), totalMapped), req, relevantUtxos, i, false)
      {
        assert [relevantUtxos[i]][0] == relevantUtxos[i];
        var credited;
        credited, routerId := CreditOutput(w, req, i, relevantUtxos[i], totalMapped, routerId);
        if credited.Err? {
          return Some(credited.error);
        }
        totalMapped := credited.value;
      }
      if totalMapped != 0 {
        var newActive := SafeAdd64(cs.supply.activeSupply, totalMapped);
        if newActive.Err? {
          return Some(newActive.error);
        }
        cs.supply := cs.supply.(activeSupply := newActive.value);
        var newUser := SafeAdd64(cs.supply.userSupply, totalMapped);
        if newUser.Err? {
          return Some(newUser.error);
        }
        cs.supply := cs.supply.(userSupply := newUser.value);
      }
      err := None;
    }

    /** HandleMap. What updateUtxoSpends returns is not looked at. */
    method HandleMap(w: Btc, req: MapRequest) returns (err: Option<Error>)
      requires req.registry == addressRegistry
      requires cs.store.Valid() && CountersInRange(cs.Live()) && WellFormed(w, req)
      modifies cs, cs.store
      ensures cs.store.Valid()
      ensures match MapTx(w, old(cs.Live()), req, false)
        case Ok(s) => err == None && cs.Live() == s
        case Err(e) => err == Some(e)
    {
      hide VerifyTransaction, MatchingOutputs, Slots, TxID, WellFormed, UpdateUtxoSpends;
      err := CheckTransaction(w, cs.store, req);
      if err.Some? {
        return;
      }
      assert |req.tx.txOut| <= 0x1_0000_0000 by { OutputCount(w, req); }
      var relevantOutputs := IndexOutputs(w, req.tx);
      if relevantOutputs.Err? {
        return Some(relevantOutputs.error);
      }
      SlotsStorable(w, req);
      var _ := cs.ConfirmSpend(TxID(w, req.tx));
      err := ProcessUtxos(w, req, relevantOutputs.value);
    }
  }

  lemma OutputCount(w: Btc, req: MapRequest)
    requires WellFormed(w, req)
    ensures |req.tx.txOut| <= 0x1_0000_0000
  {
  }

  /** Crediting looks at nothing but the balances and the router id. */
  lemma SameBalances(w: Btc, v: State, s: State, req: MapRequest, i: nat, m: AddressMetadata, amount: Int64)
    requires v.balances == s.balances && v.router == s.router
    ensures CreditBalances(w, v, req, i, m, amount, false) == CreditBalances(w, s, req, i, m, amount, false)
  {
  }
}
