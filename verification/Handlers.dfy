// The handlers of the mapping package as imperative code over the store:
// balances and transfers, spends, deposits (handlers.go, mapping.go, init.go).

module Handlers {
  import opened Wrappers
  import opened Int64
  import opened Bytes
  import opened Text
  import opened Types
  import opened Keys
  import opened World
  import opened Accounts
  import opened Registry
  import opened Selection
  import opened Spend
  import opened State
  import opened Pools
  import opened Promotion
  import opened Unmapping
  import opened StateStore
  import opened RecordCodec
  import opened SigningDataCodec

  // ---------------------------------------------------------------- balances

  method SenderIntent(intents: seq<Intent>, contractId: string) returns (r: Result<Int64>)
    ensures r == SenderLimit(intents, contractId)
  {
    for i := 0 to |intents|
      invariant SenderLimit(intents, contractId) == SenderLimit(intents[i..], contractId)
    {
      var intent := intents[i];
      assert intents[i..][1..] == intents[i + 1..];
      if intent.kind == INTENT_TRANSFER_TYPE
         && INTENT_CONTRACT_ID_KEY in intent.args && intent.args[INTENT_CONTRACT_ID_KEY] == contractId
         && INTENT_LIMIT_KEY in intent.args {
        var limit := ParseInt64(intent.args[INTENT_LIMIT_KEY]);
        return if limit.None? then Err(ErrIntent) else Ok(limit.value);
      }
    }
    r := Ok(0);
  }

  method CallerIntent(intents: seq<Intent>, contractId: string) returns (r: Result<Int64>)
    ensures r == CallerLimit(intents, contractId, 0)
  {
    var intentAmount: Int64 := 0;
    for i := 0 to |intents|
      invariant CallerLimit(intents, contractId, 0) == CallerLimit(intents[i..], contractId, intentAmount)
    {
      var intent := intents[i];
      assert intents[i..][1..] == intents[i + 1..];
      if intent.kind == INTENT_TRANSFER_TYPE
         && INTENT_CONTRACT_ID_KEY in intent.args && intent.args[INTENT_CONTRACT_ID_KEY] == contractId
         && INTENT_LIMIT_KEY in intent.args {
        var limit := ParseInt64(WithoutFirstDot(intent.args[INTENT_LIMIT_KEY]));
        if limit.None? {
          return Err(ErrIntent);
        }
        intentAmount := limit.value;
      }
    }
    r := Ok(intentAmount);
  }

  method CheckAndDeductBalance(store: StateStore, env: Env, account: string, amount: Int64) returns (err: Option<Error>)
    requires store.Valid()
    modifies store
    ensures store.Valid()
    ensures match Deduct(env, old(store.view).balances, account, amount)
      case Ok(b) => err == None && store.view == old(store.view).(balances := b)
      case Err(e) => err == Some(e) && store.view == old(store.view)
  {
    hide SenderLimit, CallerLimit;
    var bal := store.GetAccBal(account);
    if bal < amount {
      return Some(ErrBalance);
    }
    var limit: Result<Int64>;
    if account == env.sender {
      limit := SenderIntent(env.senderIntents, env.contractId);
    } else if account == env.caller {
      limit := CallerIntent(env.callerIntents, env.contractId);
    } else {
      return Some(ErrIntent);
    }
    if limit.Err? {
      return Some(limit.error);
    }
    if limit.value < amount {
      return Some(ErrIntent);
    }
    var newBal := SafeSubtract64(bal, amount);
    if newBal.Err? {
      return Some(newBal.error);
    }
    store.SetAccBal(account, newBal.value);
    err := None;
  }

  /** HandleTransfer. The recipient's balance is read after the deduction. */
  method HandleTransfer(w: Btc, store: StateStore, env: Env, p: TransferParams) returns (err: Option<Error>)
    requires store.Valid()
    modifies store
    ensures store.Valid()
    ensures match Transfer(w, env, old(store.view).balances, p)
      case Ok(b) => err == None && store.view == old(store.view).(balances := b)
      case Err(e) => err == Some(e)
  {
    hide Deduct;
    if env.sender !in env.requiredAuths {
      return Some(ErrNoPermission);
    }
    var amount := ParseInt64(p.amount);
    if amount.None? || amount.value <= 0 {
      return Some(ErrInput);
    }
    if !w.validAddress(p.to) {
      return Some(ErrInput);
    }
    var source;
    if p.from == "" || p.from == env.caller {
      source := env.caller;
    } else if p.from == env.sender {
      source := env.sender;
    } else {
      return Some(ErrInput);
    }
    err := CheckAndDeductBalance(store, env, source, amount.value);
    if err.Some? {
      return;
    }
    var recipientBal := store.GetAccBal(p.to);
    var newBal := SafeAdd64(recipientBal, amount.value);
    if newBal.Err? {
      return Some(newBal.error);
    }
    store.SetAccBal(p.to, newBal.value);
  }

  // ---------------------------------------------------------------- the loaded state

  class ContractState {
    var utxoList: UtxoRegistry
    var confirmedNextId: Byte
    var unconfirmedNextId: Byte
    var txSpendsList: TxSpendsRegistry
    var supply: SystemSupply
    const store: StateStore

    /** The state the call is working on: the store's tables with the loaded fields in place. */
    ghost function Live(): State
      reads this, store
    {
      store.view.(utxoList := utxoList, confirmedNextId := confirmedNextId, unconfirmedNextId := unconfirmedNextId,
                  txSpendsList := txSpendsList, supply := supply)
    }

    constructor (store: StateStore, utxoList: UtxoRegistry, confirmedNextId: Byte, unconfirmedNextId: Byte,
                 txSpendsList: TxSpendsRegistry, supply: SystemSupply)
      ensures this.store == store
      ensures Live() == store.view.(utxoList := utxoList, confirmedNextId := confirmedNextId,
                                    unconfirmedNextId := unconfirmedNextId, txSpendsList := txSpendsList,
                                    supply := supply)
    {
      this.store := store;
      this.utxoList := utxoList;
      this.confirmedNextId := confirmedNextId;
      this.unconfirmedNextId := unconfirmedNextId;
      this.txSpendsList := txSpendsList;
      this.supply := supply;
    }

    /** IntializeContractState: decodes the four registries, with defaults for missing ones. */
    static method Load(store: StateStore) returns (r: Result<ContractState>)
      requires store.Valid()
      ensures r.Ok? && fresh(r.value) && r.value.store == store && r.value.Live() == store.view
    {
      RegistryRoundTrip([]);
      TxSpendsRoundTrip([]);
      assert RegistryBytes([]) == [] && TxSpendsBytes([]) == [];
      hide Represents, RegistryOfBytes, TxSpendsOfBytes, SupplyOfBytes, UtxoBytes, SigningDataBytes, Encodable;
      hide ParseUint32;
      var utxos: UtxoRegistry := [];
      var utxoState := store.Get(UtxoRegistryKey);
      if |utxoState| > 0 {
        var decoded := UnmarshalUtxoRegistry(utxoState);
        if decoded.Err? {
          return Err(ErrStateAccess);
        }
        utxos := decoded.value;
      }
      var confirmedNextId: Byte, unconfirmedNextId: Byte := UTXO_CONFIRMED_POOL_START, 0;
      var counterState := store.Get(UtxoLastIdKey);
      if |counterState| == 2 {
        confirmedNextId, unconfirmedNextId := counterState[0], counterState[1];
      }
      var txSpends: TxSpendsRegistry := [];
      var txSpendsState := store.Get(TxSpendsRegistryKey);
      if |txSpendsState| > 0 {
        var decoded := UnmarshalTxSpendsRegistry(txSpendsState);
        if decoded.Err? {
          return Err(ErrStateAccess);
        }
        txSpends := decoded.value;
      }
      var supply := SystemSupply(0, 0, 0, 0);
      var supplyState := store.Get(SupplyKey);
      if |supplyState| > 0 {
        var decoded := SupplyOfBytes(supplyState);
        if decoded.Err? {
          return Err(ErrStateAccess);
        }
        supply := decoded.value;
      }
      var cs := new ContractState(store, utxos, confirmedNextId, unconfirmedNextId, txSpends, supply);
      r := Ok(cs);
    }

    /** SaveToState: afterwards the store holds the live state, and loading it gives it back. */
    method SaveToState()
      requires store.Valid()
      modifies store
      ensures store.Valid() && store.view == old(Live()) && Live() == old(Live())
    {
      RegistryRoundTrip(utxoList);
      TxSpendsRoundTrip(txSpendsList);
      SupplyRoundTrip(supply);
      hide RegistryOfBytes, RegistryBytes, TxSpendsOfBytes, TxSpendsBytes, SupplyOfBytes, SupplyBytes;
      var registry := MarshalUtxoRegistry(utxoList);
      store.Set(UtxoRegistryKey, registry, store.view.(utxoList := utxoList));
      store.Set(UtxoLastIdKey, [confirmedNextId, unconfirmedNextId],
                store.view.(confirmedNextId := confirmedNextId, unconfirmedNextId := unconfirmedNextId));
      var spends := MarshalTxSpendsRegistry(txSpendsList);
      store.Set(TxSpendsRegistryKey, spends, store.view.(txSpendsList := txSpendsList));
      store.Set(SupplyKey, SupplyBytes(supply), store.view.(supply := supply));
    }

    // -------------------------------------------------------------- id allocation

    /** At most one lap of the confirmed pool, 255 wrapping to 64. */
    method AllocateConfirmedId() returns (r: Result<Byte>)
      requires store.Valid() && UTXO_CONFIRMED_POOL_START <= confirmedNextId
      modifies this`confirmedNextId
      ensures match AllocateConfirmed(old(confirmedNextId), store.view.utxos.Keys)
        case Ok(a) => r == Ok(a.id) && confirmedNextId == a.next
        case Err(e) => r == Err(e) && confirmedNextId == old(confirmedNextId)
    {
      var startId := confirmedNextId;
      ghost var occupied := store.view.utxos.Keys;
      ghost var k := 0;
      while true
        invariant k < 192 && confirmedNextId == Slot(64, 256, startId, k)
        invariant FirstFree(64, 256, startId, occupied, 0) == FirstFree(64, 256, startId, occupied, k)
        decreases 192 - k
      {
        var id := confirmedNextId;
        if confirmedNextId == 255 {
          confirmedNextId := UTXO_CONFIRMED_POOL_START;
        } else {
          confirmedNextId := confirmedNextId + 1;
        }
        var free := store.IsFree(id);
        if free {
          return Ok(id);
        }
        if confirmedNextId == startId {
          return Err(ErrStateAccess);
        }
        k := k + 1;
      }
    }

    /** At most one lap of the unconfirmed pool, 63 wrapping to 0. */
    method AllocateUnconfirmedId() returns (r: Result<Byte>)
      requires store.Valid() && unconfirmedNextId < UTXO_CONFIRMED_POOL_START
      modifies this`unconfirmedNextId
      ensures match AllocateUnconfirmed(old(unconfirmedNextId), store.view.utxos.Keys)
        case Ok(a) => r == Ok(a.id) && unconfirmedNextId == a.next
        case Err(e) => r == Err(e) && unconfirmedNextId == old(unconfirmedNextId)
    {
      var startId := unconfirmedNextId;
      ghost var occupied := store.view.utxos.Keys;
      ghost var k := 0;
      while true
        invariant k < 64 && unconfirmedNextId == Slot(0, 64, startId, k)
        invariant FirstFree(0, 64, startId, occupied, 0) == FirstFree(0, 64, startId, occupied, k)
        decreases 64 - k
      {
        var id := unconfirmedNextId;
        if unconfirmedNextId >= UTXO_CONFIRMED_POOL_START - 1 {
          unconfirmedNextId := 0;
        } else {
          unconfirmedNextId := unconfirmedNextId + 1;
        }
        var free := store.IsFree(id);
        if free {
          return Ok(id);
        }
        if unconfirmedNextId == startId {
          return Err(ErrStateAccess);
        }
        k := k + 1;
      }
    }

    // -------------------------------------------------------------- withdrawals

    method GetInputUtxos(ids: seq<Byte>) returns (r: Result<seq<StoredUtxo>>)
      requires store.Valid()
      ensures r == LoadInputs(store.view.utxos, ids)
    {
      var result: seq<StoredUtxo> := [];
      for i := 0 to |ids|
        invariant |result| == i
        invariant forall j :: 0 <= j < i ==> ids[j] in store.view.utxos && result[j] == store.view.utxos[ids[j]]
      {
        var utxo := store.LoadUtxo(ids[i]);
        if utxo.Err? {
          return Err(ErrStateAccess);
        }
        result := result + [utxo.value];
      }
      assert result == LoadInputs(store.view.utxos, ids).value;
      r := Ok(result);
    }

    /** An id, a registry entry and a record for each change output. */
    method SaveChange(slots: seq<Option<Utxo>>) returns (err: Option<Error>)
      requires store.Valid() && CountersInRange(Live()) && StorableSlots(slots)
      modifies this`utxoList, this`unconfirmedNextId, store
      ensures store.Valid()
      ensures match AddChange(old(Live()), slots)
        case Ok(s) => err == None && Live() == s
        case Err(e) => err == Some(e)
    {
      hide Allocate;
      for i := 0 to |slots|
        invariant store.Valid() && CountersInRange(Live()) && StorableSlots(slots[i..])
        invariant AddChange(old(Live()), slots) == AddChange(Live(), slots[i..])
      {
        ghost var before := Live();
        assert slots[i..][0] == slots[i] && slots[i..][1..] == slots[i + 1..];
        var internalId := AllocateUnconfirmedId();
        if internalId.Err? {
          return Some(internalId.error);
        }
        if slots[i].None? {
          return Some(Trap);
        }
        var utxo := slots[i].value;
        utxoList := utxoList + [UtxoRegistryEntry(internalId.value, utxo.amount)];
        store.SaveUtxo(internalId.value, utxo);
        assert Live() == WithChange(before, Allocation(internalId.value, unconfirmedNextId), utxo);
      }
      assert slots[|slots|..] == [];
      err := None;
    }

    method FreeInputs(ids: seq<Byte>)
      requires store.Valid()
      modifies this`utxoList, store
      ensures store.Valid() && Live() == RemoveInputs(old(Live()), ids)
    {
      RemoveNone(Live());
      hide RemoveInputs;
      for i := 0 to |ids|
        invariant store.Valid() && Live() == RemoveInputs(old(Live()), ids[..i])
      {
        RemoveStep(old(Live()), ids, i);
        utxoList := Without(utxoList, ids[i]);
        store.DeleteUtxo(ids[i]);
      }
      assert ids[..|ids|] == ids;
    }

    /** HandleUnmap up to the deduction: checks, selection, construction. */
    method PlanWithdrawal(w: Btc, env: Env, p: TransferParams) returns (r: Result<Plan>)
      requires store.Valid() && Sane(w)
      ensures r == PlanUnmap(w, Live(), env, p)
    {
      hide SelectInputs, BuildSpend, CalcVscFee, LoadInputs, Represents;
      if env.sender !in env.requiredAuths {
        return Err(ErrNoPermission);
      }
      var amount := ParseInt64(p.amount);
      if amount.None? || amount.value <= 0 {
        return Err(ErrInput);
      }
      var vscFee := CalcVscFee(amount.value);
      if vscFee.Err? {
        return Err(vscFee.error);
      }
      var inputs := GetInputUtxoIds(utxoList, amount.value, supply.baseFeeRate);
      if inputs.Err? {
        return Err(inputs.error);
      }
      var spent := GetInputUtxos(inputs.value.ids);
      if spent.Err? {
        return Err(spent.error);
      }
      assert SpendableInputs(w, spent.value);
      var spend := CreateSpendTransaction(w, supply.baseFeeRate, spent.value, inputs.value.total, p.to, amount.value);
      if spend.Err? {
        return Err(spend.error);
      }
      r := Ok(Plan(amount.value, vscFee.value, inputs.value, spent.value, spend.value));
    }

    /** HandleUnmap */
    method HandleUnmap(w: Btc, env: Env, p: TransferParams) returns (err: Option<Error>)
      requires store.Valid() && Sane(w) && CountersInRange(Live()) && |utxoList| < 0x1_0000_0000
      modifies this, store
      ensures store.Valid()
      ensures match Unmap(w, old(Live()), env, p)
        case Ok(s) => err == None && Live() == s
        case Err(e) => err == Some(e)
    {
      hide PlanUnmap, ExecuteUnmap, Encodable, Represents, Sane;
      var planned := PlanWithdrawal(w, env, p);
      if planned.Err? {
        return Some(planned.error);
      }
      var plan := planned.value;
      PlanOutputs(w, Live(), env, p, plan);
      SigningEncodable(w, Live(), env, p, plan);
      var withFee: int := plan.amount as int + plan.vscFee as int;
      var sum: int := Wrap64(withFee) as int + plan.spend.fee as int;
      err := CompleteUnmap(w, env, plan.inputs.ids, plan.spend, plan.vscFee, Wrap64(sum), plan);
    }

    /** HandleUnmap from the deduction on. */
    method CompleteUnmap(w: Btc, env: Env, inputIds: seq<Byte>, spend: SpendTx, vscFee: Int64, finalAmt: Int64,
                         ghost plan: Plan)
      returns (err: Option<Error>)
      requires store.Valid() && Sane(w) && CountersInRange(Live())
      requires inputIds == plan.inputs.ids && spend == plan.spend && vscFee == plan.vscFee
        && finalAmt == plan.FinalAmt()
      requires 1 <= |spend.tx.txOut| <= 5 && Encodable(spend.signing)
      modifies this, store
      ensures store.Valid()
      ensures match ExecuteUnmap(w, old(Live()), env, plan)
        case Ok(s) => err == None && Live() == s
        case Err(e) => err == Some(e)
    {
      hide Deduct, AddChange, RemoveInputs, ChangeSlots, TxID, Sane, StorableSlots, Encodable;
      ghost var s0 := Live();
      err := CheckAndDeductBalance(store, env, env.sender, finalAmt);
      if err.Some? {
        return;
      }
      ChangeStorable(w, spend.tx);
      var slots := IndexUnconfirmedOutputs(w, spend.tx, w.changeAddress);
      if slots.Err? {
        return Some(slots.error);
      }
      err := SaveChange(slots.value);
      if err.Some? {
        return;
      }
      FreeInputs(inputIds);
      ghost var s2 := Live();
      store.SetTxSpend(TxID(w, spend.tx), spend.signing);
      txSpendsList := txSpendsList + [TxID(w, spend.tx)];
      assert Live() == RecordSpend(s2, TxID(w, spend.tx), spend.signing);

      var newActive := SafeSubtract64(supply.activeSupply, finalAmt);
      if newActive.Err? {
        return Some(newActive.error);
      }
      supply := supply.(activeSupply := newActive.value);
      var newUser := SafeSubtract64(supply.userSupply, finalAmt);
      if newUser.Err? {
        return Some(newUser.error);
      }
      supply := supply.(userSupply := newUser.value);
      var newFee := SafeAdd64(supply.feeSupply, vscFee);
      if newFee.Err? {
        return Some(newFee.error);
      }
      supply := supply.(feeSupply := newFee.value);
    }

    // -------------------------------------------------------------- confirmations

    /** updateUtxoSpends; false stands for its error returns. */
    method ConfirmSpend(txId: TxId) returns (ok: bool)
      requires store.Valid() && CountersInRange(Live())
      modifies this`utxoList, this`confirmedNextId, this`txSpendsList, store
      ensures store.Valid() && (Live(), ok) == UpdateUtxoSpends(old(Live()), txId)
    {
      hide PromoteAll, Forget;
      ghost var s0 := Live();
      var utxoSpend := store.GetTxSpend(txId);
      if utxoSpend.Err? {
        return false;
      }
      if utxoSpend.value.None? {
        return true;
      }
      var unconfirmed := CollectUnconfirmed();
      if unconfirmed.None? {
        return false;
      }
      var entries := unconfirmed.value;
      UnconfirmedEntriesMeaning(s0, |s0.utxoList|);
      var hashes := utxoSpend.value.value.unsignedSigHashes;
      ok := PromoteSpend(txId, hashes, entries);
      if !ok {
        return;
      }
      ghost var s1 := Live();
      store.DeleteTxSpend(txId);
      txSpendsList := DropFirst(txSpendsList, txId);
      ForgetKeeps(s1, txId);
      assert Live() == Forget(s1, txId);
    }

    method CollectUnconfirmed() returns (r: Option<seq<UnconfirmedEntry>>)
      requires store.Valid()
      ensures RecordsPresent(Live()) ==> r == Some(UnconfirmedEntries(Live(), |utxoList|))
      ensures !RecordsPresent(Live()) ==> r == None
    {
      var entries: seq<UnconfirmedEntry> := [];
      for i := 0 to |utxoList|
        invariant forall j :: 0 <= j < i && !IsConfirmed(utxoList[j]) ==> utxoList[j].id in store.view.utxos
        invariant RecordsPresent(Live()) ==> entries == UnconfirmedEntries(Live(), i)
      {
        var entry := utxoList[i];
        if entry.id < UTXO_CONFIRMED_POOL_START {
          var utxo := store.LoadUtxo(entry.id);
          if utxo.Err? {
            assert !IsConfirmed(Live().utxoList[i]) && Live().utxoList[i].id !in Live().utxos;
            return None;
          }
          entries := entries + [UnconfirmedEntry(i, utxo.value)];
        }
      }
      r := Some(entries);
    }

    method PromoteSpend(txId: TxId, hashes: seq<UnsignedSigHash>, entries: seq<UnconfirmedEntry>) returns (ok: bool)
      requires store.Valid() && CountersInRange(Live()) && InRegistry(Live(), entries)
      modifies this`utxoList, this`confirmedNextId, store
      ensures store.Valid() && (Live(), ok) == PromoteAll(old(Live()), txId, hashes, entries)
    {
      hide Allocate, Promote;
      for i := 0 to |hashes|
        invariant store.Valid() && CountersInRange(Live()) && InRegistry(Live(), entries)
        invariant PromoteAll(old(Live()), txId, hashes, entries) == PromoteAll(Live(), txId, hashes[i..], entries)
      {
        ghost var s1 := Live();
        ghost var index := hashes[i].index;
        assert hashes[i..][0] == hashes[i] && hashes[i..][1..] == hashes[i + 1..];
        for j := 0 to |entries|
          invariant store.Valid() && CountersInRange(Live()) && InRegistry(Live(), entries)
          invariant PromoteEntries(s1, txId, index, entries) == PromoteEntries(Live(), txId, index, entries[j..])
        {
          ghost var s2 := Live();
          var unconfirmed := entries[j];
          assert entries[j..][0] == unconfirmed && entries[j..][1..] == entries[j + 1..];
          if txId == unconfirmed.utxo.txId && hashes[i].index == unconfirmed.utxo.vout {
            var newId := AllocateConfirmedId();
            if newId.Err? {
              return false;
            }
            store.SaveUtxo(newId.value, unconfirmed.utxo);
            store.DeleteUtxo(utxoList[unconfirmed.indexInRegistry].id);
            var i := unconfirmed.indexInRegistry;
            utxoList := utxoList[i := utxoList[i].(id := newId.value)];
            PromotedState(s2, Live(), unconfirmed, Allocation(newId.value, confirmedNextId));
          }
        }
        assert entries[|entries|..] == [];
      }
      assert hashes[|hashes|..] == [];
      ok := true;
    }
  }

  /** The three writes of a promotion amount to Promote. */
  lemma PromotedState(s: State, s': State, e: UnconfirmedEntry, a: Allocation)
    requires e.indexInRegistry < |s.utxoList|
    requires s' == s.(confirmedNextId := a.next,
                      utxos := s.utxos[a.id := e.utxo.Stored()] - {s.utxoList[e.indexInRegistry].id},
                      utxoList := s.utxoList[e.indexInRegistry := s.utxoList[e.indexInRegistry].(id := a.id)])
    ensures s' == Promote(s, e, a)
  {
    assert e.utxo.Stored() == e.utxo;
  }

  /** The loop that swaps the last element over the first match. */
  method DropFirst(list: TxSpendsRegistry, txId: TxId) returns (r: TxSpendsRegistry)
    ensures r == SwapRemove(list, txId)
  {
    for i := 0 to |list|
      invariant txId !in list[..i]
    {
      if list[i] == txId {
        FirstIndexUnique(list, txId, i);
        r := list[i := list[|list| - 1]];
        return r[..|list| - 1];
      }
    }
    assert list[..|list|] == list;
    r := list;
  }

  lemma FirstIndexUnique(list: TxSpendsRegistry, txId: TxId, i: nat)
    requires i < |list| && list[i] == txId && txId !in list[..i]
    ensures FirstIndex(list, txId) == i
  {
    var j := FirstIndex(list, txId);
    assert forall k :: 0 <= k < i ==> list[k] in list[..i];
    assert forall k :: 0 <= k < j ==> list[k] in list[..j];
  }

  lemma RemoveNone(s: State)
    ensures RemoveInputs(s, []) == s
  {
  }

  lemma RemoveStep(s: State, ids: seq<Byte>, i: nat)
    requires i < |ids|
    ensures var before := RemoveInputs(s, ids[..i]);
      RemoveInputs(s, ids[..i + 1])
      == before.(utxoList := Without(before.utxoList, ids[i]), utxos := before.utxos - {ids[i]})
  {
    var more := ids[..i + 1];
    assert more[..i] == ids[..i] && more[i] == ids[i];
    SetStep(ids[..i], ids[i], more);
    hide Without;
  }

  lemma SetStep(ids: seq<Byte>, id: Byte, more: seq<Byte>)
    requires more == ids + [id]
    ensures (set x | x in more) == (set x | x in ids) + {id}
  {
  }

  lemma ScriptSize(w: Btc, tag: Option<Bytes>)
    requires |w.primaryKey| == |w.backupKey| == 33 && (tag.Some? ==> |tag.value| <= 255)
    ensures |WitnessScript(w, tag)| <= 400
  {
  }

  /** Withdrawals stay far below MessagePack's 32-bit lengths. */
  lemma SigningEncodable(w: Btc, s: State, env: Env, p: TransferParams, plan: Plan)
    requires Sane(w) && PlanUnmap(w, s, env, p) == Ok(plan) && |s.utxoList| < 0x1_0000_0000
    ensures Encodable(plan.spend.signing)
  {
    hide PlanUnmap, SelectInputs, BuildSpend, CalcVscFee, WitnessScript, SpendOutputs, SpendFee, Outpoints, ChangeCount;
    PlanParts(w, s, env, p, plan);
    var destScript := PlanSpend(w, s, env, p, plan);
    SelectionSize(s.utxoList, plan.amount, s.supply.baseFeeRate, plan.inputs);
    HashesEncodable(w, plan.spend.tx, plan.spent);
  }

  lemma HashesEncodable(w: Btc, tx: MsgTx, inputs: seq<Utxo>)
    requires Sane(w) && SpendableInputs(w, inputs)
    ensures forall h :: h in SigHashes(w, tx, inputs) ==> EncodableHash(h)
  {
    hide WitnessScript;
    forall h | h in SigHashes(w, tx, inputs) ensures EncodableHash(h) {
      var i :| 0 <= i < |inputs| && SigHashes(w, tx, inputs)[i] == h;
      ScriptSize(w, inputs[i].tag);
    }
  }
}
