// The withdrawal step (HandleUnmap in handlers.go) on typed state, and what it
// does to the registry and the ledger.

module Unmapping {
  import opened Wrappers
  import opened Int64
  import opened Bytes
  import opened Text
  import opened Types
  import opened World
  import opened Accounts
  import opened Registry
  import opened Selection
  import opened Spend
  import opened State
  import opened Pools

  /** The numbers a withdrawal commits to before it touches any state. */
  datatype Plan = Plan(amount: Int64, vscFee: Int64, inputs: Inputs, spent: seq<StoredUtxo>, spend: SpendTx) {
    /** What the sender pays; both additions are unchecked. */
    function FinalAmt(): Int64 {
      Wrap64(Wrap64(amount + vscFee) + spend.fee)
    }
  }

  /** getInputUtxos */
  function LoadInputs(utxos: map<Byte, StoredUtxo>, ids: seq<Byte>): (r: Result<seq<StoredUtxo>>)
  {
    if forall i :: 0 <= i < |ids| ==> ids[i] in utxos
    then Ok(seq(|ids|, i requires 0 <= i < |ids| => utxos[ids[i]]))
    else Err(ErrStateAccess)
  }

  function PlanUnmap(w: Btc, s: State, env: Env, p: TransferParams): (r: Result<Plan>)
    requires Sane(w)
  {
    if !Authorised(env) then Err(ErrNoPermission) else
    var amount := ParseInt64(p.amount);
    if amount.None? || amount.value <= 0 then Err(ErrInput) else
    var vscFee :- CalcVscFee(amount.value);
    var inputs :- SelectInputs(s.utxoList, amount.value, s.supply.baseFeeRate);
    var spent :- LoadInputs(s.utxos, inputs.ids);
    var spend :- BuildSpend(w, s.supply.baseFeeRate, spent, inputs.total, p.to, amount.value);
    Ok(Plan(amount.value, vscFee, inputs, spent, spend))
  }

  /** Gives each change output an unconfirmed id, a record and a registry entry, in order. An
      empty slot is a nil pointer, dereferenced after its id was allocated. */
  function AddChange(s: State, slots: seq<Option<Utxo>>): (r: Result<State>)
    requires CountersInRange(s) && StorableSlots(slots)
    decreases |slots|
  {
    if slots == [] then Ok(s) else
    var a :- AllocateUnconfirmed(s.unconfirmedNextId, s.utxos.Keys);
    if slots[0].None? then Err(Trap) else
    AddChange(WithChange(s, a, slots[0].value), slots[1..])
  }

  function WithChange(s: State, a: Allocation, u: Utxo): State
    requires u.Storable()
  {
    s.(unconfirmedNextId := a.next,
       utxoList := s.utxoList + [UtxoRegistryEntry(a.id, u.amount)],
       utxos := s.utxos[a.id := u.Stored()])
  }

  function RemoveInputs(s: State, ids: seq<Byte>): State {
    s.(utxoList := WithoutAll(s.utxoList, ids), utxos := s.utxos - (set id | id in ids))
  }

  function RecordSpend(s: State, txId: TxId, signing: SigningData): State {
    s.(txSpends := s.txSpends[txId := signing], txSpendsList := s.txSpendsList + [txId])
  }

  function Settle(s: State, finalAmt: Int64, vscFee: Int64): (r: Result<State>)
  {
    var newActive :- SafeSubtract64(s.supply.activeSupply, finalAmt);
    var newUser :- SafeSubtract64(s.supply.userSupply, finalAmt);
    var newFee :- SafeAdd64(s.supply.feeSupply, vscFee);
    Ok(s.(supply := s.supply.(activeSupply := newActive, userSupply := newUser, feeSupply := newFee)))
  }

  /** HandleUnmap: plan, deduct, index change, free inputs, record the spend, settle the supply. */
  function Unmap(w: Btc, s: State, env: Env, p: TransferParams): (r: Result<State>)
    requires Sane(w) && CountersInRange(s)
  {
    var plan :- PlanUnmap(w, s, env, p);
    ExecuteUnmap(w, s, env, plan)
  }

  function ExecuteUnmap(w: Btc, s: State, env: Env, plan: Plan): (r: Result<State>)
    requires Sane(w) && CountersInRange(s) && 1 <= |plan.spend.tx.txOut| <= 0x1_0000_0000
  {
    var tx := plan.spend.tx;
    var balances :- Deduct(env, s.balances, env.sender, plan.FinalAmt());
    var slots :- ChangeSlots(w, tx, w.changeAddress);
    assert StorableSlots(slots) by { ChangeStorable(w, tx); }
    var s1 :- AddChange(s.(balances := balances), slots);
    var s2 := RemoveInputs(s1, plan.inputs.ids);
    Settle(RecordSpend(s2, TxID(w, tx), plan.spend.signing), plan.FinalAmt(), plan.vscFee)
  }

  lemma {:induction false} PayingMember(w: Btc, txId: TxId, outs: seq<TxOut>, address: string, u: Utxo)
    requires |outs| <= 0x1_0000_0000 && u in OutputsPaying(w, txId, outs, address)
    ensures exists i :: 0 <= i < |outs| && PaysTo(w, outs[i], address) && u == ChangeUtxo(txId, i, outs[i])
    ensures u.vout < |outs| && w.addrsOf(outs[u.vout].pkScript) == Some([address])
    ensures u == Utxo(txId, u.vout, outs[u.vout].value, outs[u.vout].pkScript, None)
  {
    var n := |outs| - 1;
    if u in OutputsPaying(w, txId, outs[..n], address) {
      PayingMember(w, txId, outs[..n], address, u);
      var i :| 0 <= i < n && PaysTo(w, outs[..n][i], address) && u == ChangeUtxo(txId, i, outs[..n][i]);
      assert outs[..n][i] == outs[i];
    }
  }

  lemma ChangeStorable(w: Btc, tx: MsgTx)
    requires Sane(w) && 1 <= |tx.txOut| <= 0x1_0000_0000
    ensures ChangeSlots(w, tx, w.changeAddress).Ok? ==> StorableSlots(ChangeSlots(w, tx, w.changeAddress).value)
  {
    var found := OutputsPaying(w, TxID(w, tx), tx.txOut, w.changeAddress);
    forall j | 0 <= j < |found| ensures found[j].Storable() {
      PayingMember(w, TxID(w, tx), tx.txOut, w.changeAddress, found[j]);
    }
  }

  // ---------------------------------------------------------------- registry effect

  function SumUtxos(us: seq<Utxo>): int {
    if us == [] then 0 else SumUtxos(us[..|us| - 1]) + us[|us| - 1].amount
  }

  /** s' is s with `added` appended to the registry, old records untouched and nothing else changed. */
  ghost predicate Grown(s: State, s': State, added: UtxoRegistry) {
    && s'.utxoList == s.utxoList + added
    && s' == s.(utxoList := s'.utxoList, utxos := s'.utxos, unconfirmedNextId := s'.unconfirmedNextId)
    && forall id :: id in s.utxos ==> id in s'.utxos && s'.utxos[id] == s.utxos[id]
  }

  /** The i-th slot holds a record, stored under an id that was free, registered with its amount. */
  ghost predicate NewEntry(s: State, s': State, slot: Option<Utxo>, e: UtxoRegistryEntry) {
    && slot.Some?
    && e.id < UTXO_CONFIRMED_POOL_START && e.id !in s.utxos && e.id in s'.utxos
    && e.amount == slot.value.amount && s'.utxos[e.id] == slot.value.Stored()
  }

  /** `added` pairs up with the slots, entry by entry. */
  ghost predicate NewEntries(s: State, s': State, slots: seq<Option<Utxo>>, added: UtxoRegistry) {
    |added| == |slots| && forall i :: 0 <= i < |slots| ==> NewEntry(s, s', slots[i], added[i])
  }

  /** One iteration of the indexing loop. */
  lemma AddChangeStep(s: State, slots: seq<Option<Utxo>>) returns (s1: State, e: UtxoRegistryEntry)
    requires CountersInRange(s) && Coherent(s) && StorableSlots(slots) && slots != []
    requires AddChange(s, slots).Ok?
    ensures CountersInRange(s1) && Coherent(s1) && StorableSlots(slots[1..])
    ensures AddChange(s, slots) == AddChange(s1, slots[1..])
    ensures Grown(s, s1, [e]) && NewEntry(s, s1, slots[0], e)
  {
    var a := AllocateUnconfirmed(s.unconfirmedNextId, s.utxos.Keys).value;
    AllocateMeaning(0, UTXO_CONFIRMED_POOL_START, s.unconfirmedNextId, s.utxos.Keys);
    hide Allocate;
    var u := slots[0].value;
    AppendCoherent(s, a.id, u.Stored());
    s1, e := WithChange(s, a, u), UtxoRegistryEntry(a.id, u.amount);
  }

  lemma ChainEntries(s: State, s1: State, s': State, slots: seq<Option<Utxo>>, e: UtxoRegistryEntry, rest: UtxoRegistry)
    requires slots != [] && Grown(s, s1, [e]) && NewEntry(s, s1, slots[0], e)
    requires Grown(s1, s', rest) && NewEntries(s1, s', slots[1..], rest)
    ensures Grown(s, s', [e] + rest) && NewEntries(s, s', slots, [e] + rest)
  {
    var added := [e] + rest;
    assert s1.utxoList + rest == s.utxoList + added;
    forall i | 0 <= i < |slots| ensures NewEntry(s, s', slots[i], added[i]) {
      if i > 0 {
        assert NewEntry(s1, s', slots[1..][i - 1], rest[i - 1]);
      }
    }
  }

  /** Change ids are new, distinct and unconfirmed; the registry grows by exactly the change
      outputs, in order; everything else stays. Success leaves no empty slot behind. */
  lemma {:induction false} AddChangeEffect(s: State, slots: seq<Option<Utxo>>) returns (added: UtxoRegistry)
    requires CountersInRange(s) && Coherent(s) && StorableSlots(slots)
    requires AddChange(s, slots).Ok?
    ensures var s' := AddChange(s, slots).value;
      Coherent(s') && CountersInRange(s') && Grown(s, s', added) && NewEntries(s, s', slots, added)
    decreases |slots|
  {
    if slots == [] {
      added := [];
      assert s.utxoList + added == s.utxoList;
    } else {
      hide AddChange, Coherent, CountersInRange, StorableSlots, Grown, NewEntry, NewEntries;
      var s1, e := AddChangeStep(s, slots);
      var rest := AddChangeEffect(s1, slots[1..]);
      ChainEntries(s, s1, AddChange(s, slots).value, slots, e, rest);
      added := [e] + rest;
    }
  }

  lemma RemoveCoherent(s: State, ids: seq<Byte>)
    requires Coherent(s)
    ensures Coherent(RemoveInputs(s, ids))
  {
    var s' := RemoveInputs(s, ids);
    WithoutAllDistinct(s.utxoList, ids);
    forall i | 0 <= i < |s'.utxoList|
      ensures s'.utxoList[i].id in s'.utxos && s'.utxos[s'.utxoList[i].id].amount == s'.utxoList[i].amount
    {
      var e := s'.utxoList[i];
      WithoutAllMember(s.utxoList, ids, e);
      var j :| 0 <= j < |s.utxoList| && s.utxoList[j] == e;
      assert e.id in IdSet(s.utxoList);
    }
    forall id | id in s'.utxos ensures id in IdSet(s'.utxoList) {
      var j := EntryOf(s, id);
      WithoutAllMember(s.utxoList, ids, s.utxoList[j]);
      var i :| 0 <= i < |s'.utxoList| && s'.utxoList[i] == s.utxoList[j];
    }
  }

  /** A call with plan `plan` that completes in state s'. */
  ghost predicate Completes(w: Btc, s: State, env: Env, p: TransferParams, plan: Plan, s': State) {
    && Sane(w) && CountersInRange(s)
    && PlanUnmap(w, s, env, p) == Ok(plan)
    && Unmap(w, s, env, p) == Ok(s')
  }

  lemma PlanOutputs(w: Btc, s: State, env: Env, p: TransferParams, plan: Plan)
    requires Sane(w) && PlanUnmap(w, s, env, p) == Ok(plan)
    ensures 1 <= |plan.spend.tx.txOut| <= 5
  {
    hide SelectInputs, CalcVscFee, Sane, SpendableInputs;
  }

  /** The intermediate states of a withdrawal. */
  lemma UnmapStages(w: Btc, s: State, env: Env, p: TransferParams, plan: Plan, s': State)
    returns (balances: Balances, found: seq<Utxo>, s1: State)
    requires Completes(w, s, env, p, plan, s')
    ensures 1 <= |plan.spend.tx.txOut| <= 0x1_0000_0000
    ensures Deduct(env, s.balances, env.sender, plan.FinalAmt()) == Ok(balances)
    ensures found == OutputsPaying(w, TxID(w, plan.spend.tx), plan.spend.tx.txOut, w.changeAddress)
    ensures var slots := Slots(found, |plan.spend.tx.txOut| - 1);
      StorableSlots(slots) && AddChange(s.(balances := balances), slots) == Ok(s1)
    ensures Settle(RecordSpend(RemoveInputs(s1, plan.inputs.ids), TxID(w, plan.spend.tx), plan.spend.signing),
                   plan.FinalAmt(), plan.vscFee) == Ok(s')
  {
    hide Deduct, AddChange, Settle, OutputsPaying, Slots, TxID, RemoveInputs, RecordSpend, Sane, PlanUnmap;
    var tx := plan.spend.tx;
    PlanOutputs(w, s, env, p, plan);
    ChangeStorable(w, tx);
    balances := Deduct(env, s.balances, env.sender, plan.FinalAmt()).value;
    found := OutputsPaying(w, TxID(w, tx), tx.txOut, w.changeAddress);
    s1 := AddChange(s.(balances := balances), Slots(found, |tx.txOut| - 1)).value;
  }

  /** From s to s' the registry loses the entries of `ids` and gains `added`: fresh unconfirmed ids
      with the amounts and records of `found`. All other records stay as they were. */
  ghost predicate Replaced(s: State, s': State, ids: seq<Byte>, found: seq<Utxo>, added: UtxoRegistry) {
    && |added| == |found|
    && s'.utxoList == WithoutAll(s.utxoList, ids) + added
    && (forall id :: id in s.utxos && id !in ids ==> id in s'.utxos && s'.utxos[id] == s.utxos[id])
    && forall i :: 0 <= i < |added| ==>
         && added[i].id !in s.utxos && added[i].id < UTXO_CONFIRMED_POOL_START && added[i].amount == found[i].amount
         && found[i].Storable() && added[i].id in s'.utxos && s'.utxos[added[i].id] == found[i].Stored()
  }

  /** Change ids are allocated while the input slots are still occupied, so freeing the inputs
      afterwards cannot take a change entry with it. */
  lemma ChangeThenFree(s: State, found: seq<Utxo>, capacity: nat, ids: seq<Byte>) returns (added: UtxoRegistry)
    requires CountersInRange(s) && Coherent(s) && StorableSlots(Slots(found, capacity))
    requires AddChange(s, Slots(found, capacity)).Ok?
    requires forall id :: id in ids ==> id in s.utxos
    ensures |found| >= capacity
    ensures var s' := RemoveInputs(AddChange(s, Slots(found, capacity)).value, ids);
      Coherent(s') && CountersInRange(s') && Replaced(s, s', ids, found, added)
  {
    var slots := Slots(found, capacity);
    var s1 := AddChange(s, slots).value;
    added := AddChangeEffect(s, slots);
    AllSlotsFilled(s, s1, found, capacity, added);
    hide AddChange, Slots, NewEntries, StorableSlots;
    RemoveCoherent(s1, ids);
    hide Coherent;
    FreshReplaced(s, s1, ids, found, added);
  }

  lemma FreshReplaced(s: State, s1: State, ids: seq<Byte>, found: seq<Utxo>, added: UtxoRegistry)
    requires Grown(s, s1, added) && |added| == |found|
    requires forall i :: 0 <= i < |added| ==> found[i].Storable() && NewEntry(s, s1, Some(found[i]), added[i])
    requires forall id :: id in ids ==> id in s.utxos
    ensures Replaced(s, RemoveInputs(s1, ids), ids, found, added)
  {
    WithoutAllAppend(s.utxoList, added, ids);
    hide WithoutAll;
  }

  /** The registry after a withdrawal is the old one without the inputs, then the change outputs;
      it is coherent with the records, each change record being stored as built. */
  lemma UnmapRegistry(w: Btc, s: State, env: Env, p: TransferParams, plan: Plan, s': State)
    returns (found: seq<Utxo>, added: UtxoRegistry)
    requires Completes(w, s, env, p, plan, s') && Coherent(s)
    ensures 1 <= |plan.spend.tx.txOut| <= 0x1_0000_0000
    ensures found == OutputsPaying(w, TxID(w, plan.spend.tx), plan.spend.tx.txOut, w.changeAddress)
    ensures |found| >= |plan.spend.tx.txOut| - 1
    ensures Coherent(s') && CountersInRange(s') && Replaced(s, s', plan.inputs.ids, found, added)
  {
    hide Unmap, PlanUnmap, AddChange, Deduct, OutputsPaying, Slots, StorableSlots, TxID, Settle, Sane;
    hide SelectInputs, BuildSpend, CalcVscFee, LoadInputs, Coherent, Replaced, CountersInRange;
    var balances, s1;
    balances, found, s1 := UnmapStages(w, s, env, p, plan, s');
    PlanParts(w, s, env, p, plan);
    var s0 := s.(balances := balances);
    SameRegistry(s, s0);
    added := ChangeThenFree(s0, found, |plan.spend.tx.txOut| - 1, plan.inputs.ids);
    var s2 := RemoveInputs(s1, plan.inputs.ids);
    var s3 := RecordSpend(s2, TxID(w, plan.spend.tx), plan.spend.signing);
    hide RemoveInputs;
    SettleKeeps(s3, plan.FinalAmt(), plan.vscFee);
    SameTables(s0, s2, s, s', plan.inputs.ids, found, added);
  }

  lemma SameRegistry(s: State, s0: State)
    requires Coherent(s) && CountersInRange(s)
    requires s0.utxoList == s.utxoList && s0.utxos == s.utxos
    requires s0.confirmedNextId == s.confirmedNextId && s0.unconfirmedNextId == s.unconfirmedNextId
    ensures Coherent(s0) && CountersInRange(s0)
  {
  }

  lemma SameTables(s0: State, s2: State, s: State, s': State, ids: seq<Byte>, found: seq<Utxo>, added: UtxoRegistry)
    requires Coherent(s2) && CountersInRange(s2) && Replaced(s0, s2, ids, found, added)
    requires s0.utxoList == s.utxoList && s0.utxos == s.utxos
    requires s2.utxoList == s'.utxoList && s2.utxos == s'.utxos
    requires s2.confirmedNextId == s'.confirmedNextId && s2.unconfirmedNextId == s'.unconfirmedNextId
    ensures Coherent(s') && CountersInRange(s') && Replaced(s, s', ids, found, added)
  {
  }

  /** Settling changes three supply numbers and nothing else. */
  lemma SettleKeeps(s: State, finalAmt: Int64, vscFee: Int64)
    requires Settle(s, finalAmt, vscFee).Ok?
    ensures var s' := Settle(s, finalAmt, vscFee).value;
      && s' == s.(supply := s'.supply)
      && s'.supply == SystemSupply(s.supply.activeSupply - finalAmt, s.supply.userSupply - finalAmt,
                                   s.supply.feeSupply + vscFee, s.supply.baseFeeRate)
  {
  }

  /** The parts of a plan. */
  lemma PlanParts(w: Btc, s: State, env: Env, p: TransferParams, plan: Plan)
    requires Sane(w) && PlanUnmap(w, s, env, p) == Ok(plan)
    ensures Authorised(env) && plan.amount > 0 && CalcVscFee(plan.amount) == Ok(plan.vscFee)
    ensures SelectInputs(s.utxoList, plan.amount, s.supply.baseFeeRate) == Ok(plan.inputs)
    ensures LoadInputs(s.utxos, plan.inputs.ids) == Ok(plan.spent)
    ensures forall id :: id in plan.inputs.ids ==> id in s.utxos
    ensures SpendableInputs(w, plan.spent)
    ensures BuildSpend(w, s.supply.baseFeeRate, plan.spent, plan.inputs.total, p.to, plan.amount) == Ok(plan.spend)
  {
    assert |w.primaryKey| == |w.backupKey| == 33;
    hide SelectInputs, BuildSpend, CalcVscFee, Sane;
  }

  /** When a withdrawal can be planned: its sender authorised the call, the amount is a positive number above
      the protocol fee, coins can be selected for it, and the destination is an address. */
  lemma PlanExact(w: Btc, s: State, env: Env, p: TransferParams)
    requires Sane(w) && Coherent(s)
    ensures PlanUnmap(w, s, env, p).Ok? <==>
      && env.sender in env.requiredAuths
      && ParseInt64(p.amount).Some? && ParseInt64(p.amount).value > 0
      && CalcVscFee(ParseInt64(p.amount).value).Ok?
      && SelectInputs(s.utxoList, ParseInt64(p.amount).value, s.supply.baseFeeRate).Ok?
      && w.decodeAddress(p.to).Some?
    ensures env.sender !in env.requiredAuths ==> PlanUnmap(w, s, env, p) == Err(ErrNoPermission)
    ensures env.sender in env.requiredAuths && (ParseInt64(p.amount).None? || ParseInt64(p.amount).value <= 0) ==>
      PlanUnmap(w, s, env, p) == Err(ErrInput)
  {
    assert |w.primaryKey| == |w.backupKey| == 33;
    var amount := ParseInt64(p.amount);
    hide SelectInputs, CalcVscFee, ParseInt64, Sane, SpendFee, SpendOutputs, SigHashes, SpendableInputs;
    if amount.Some? && SelectInputs(s.utxoList, amount.value, s.supply.baseFeeRate).Ok? {
      SelectedExist(s, amount.value);
      KeysSpend(w, s, SelectInputs(s.utxoList, amount.value, s.supply.baseFeeRate).value.ids);
    }
    hide Coherent;
  }

  /** Which error a withdrawal that cannot be planned reports: permission, then amount, then the protocol fee,
      then the selection's own error, then the destination. */
  lemma PlanErrors(w: Btc, s: State, env: Env, p: TransferParams, amount: Int64)
    requires Sane(w) && Coherent(s) && env.sender in env.requiredAuths
    requires ParseInt64(p.amount) == Some(amount) && amount > 0
    ensures CalcVscFee(amount).Err? ==> PlanUnmap(w, s, env, p) == Err(ErrBalance)
    ensures CalcVscFee(amount).Ok? ==>
      var selected := SelectInputs(s.utxoList, amount, s.supply.baseFeeRate);
      && (selected.Err? ==> PlanUnmap(w, s, env, p) == Err(selected.error))
      && (selected.Ok? && w.decodeAddress(p.to).None? ==> PlanUnmap(w, s, env, p) == Err(ErrInput))
  {
    assert |w.primaryKey| == |w.backupKey| == 33;
    hide SelectInputs, ParseInt64, Sane, SpendFee, SpendOutputs, SigHashes, SpendableInputs;
    if SelectInputs(s.utxoList, amount, s.supply.baseFeeRate).Ok? {
      SelectedExist(s, amount);
      KeysSpend(w, s, SelectInputs(s.utxoList, amount, s.supply.baseFeeRate).value.ids);
    }
    hide Coherent, CalcVscFee;
    FeeError(amount);
  }

  lemma FeeError(amount: Int64)
    ensures CalcVscFee(amount).Err? ==> CalcVscFee(amount).error == ErrBalance
  {
  }

  /** Coins that are selected are stored. */
  lemma SelectedExist(s: State, amount: Int64)
    requires Coherent(s) && SelectInputs(s.utxoList, amount, s.supply.baseFeeRate).Ok?
    ensures LoadInputs(s.utxos, SelectInputs(s.utxoList, amount, s.supply.baseFeeRate).value.ids).Ok?
  {
    hide SelectInputs, SumAmounts, Covers;
    var taken := SelectionSound(s.utxoList, amount, s.supply.baseFeeRate);
    forall i | 0 <= i < |taken| ensures taken[i].id in s.utxos {
      assert taken[i] in s.utxoList;
      var j :| 0 <= j < |s.utxoList| && s.utxoList[j] == taken[i];
      assert s.utxoList[j].id in IdSet(s.utxoList);
    }
  }

  lemma KeysSpend(w: Btc, s: State, ids: seq<Byte>)
    requires |w.primaryKey| == |w.backupKey| == 33 && LoadInputs(s.utxos, ids).Ok?
    ensures SpendableInputs(w, LoadInputs(s.utxos, ids).value)
  {
  }

  lemma EmptySlotRemains(found: seq<Utxo>, capacity: nat)
    ensures |found| < capacity <==> exists i :: 0 <= i < |Slots(found, capacity)| && Slots(found, capacity)[i].None?
  {
    if |found| < capacity {
      assert Slots(found, capacity)[|found|].None?;
    }
  }

  lemma AllSlotsFilled(s: State, s': State, found: seq<Utxo>, capacity: nat, added: UtxoRegistry)
    requires NewEntries(s, s', Slots(found, capacity), added) && StorableSlots(Slots(found, capacity))
    ensures |added| == |found| >= capacity
    ensures forall i :: 0 <= i < |found| ==> found[i].Storable() && NewEntry(s, s', Some(found[i]), added[i])
  {
    var slots := Slots(found, capacity);
    assert forall i :: 0 <= i < |slots| ==> NewEntry(s, s', slots[i], added[i]);
    EmptySlotRemains(found, capacity);
    forall i | 0 <= i < |found| ensures found[i].Storable() && NewEntry(s, s', Some(found[i]), added[i]) {
      assert slots[i] == Some(found[i]);
    }
  }

  // ---------------------------------------------------------------- reserve ledger

  lemma {:induction false} SumPaying(w: Btc, txId: TxId, outs: seq<TxOut>, address: string)
    requires 1 <= |outs| <= 0x1_0000_0000
    requires forall i :: 1 <= i < |outs| ==> PaysTo(w, outs[i], address)
    ensures SumUtxos(OutputsPaying(w, txId, outs, address))
         == SumOutputs(outs[1..]) + if PaysTo(w, outs[0], address) then outs[0].value else 0
  {
    var n := |outs| - 1;
    var front := OutputsPaying(w, txId, outs[..n], address);
    if n == 0 {
      assert front == [] && outs[1..] == [];
      if PaysTo(w, outs[0], address) {
        var all := OutputsPaying(w, txId, outs, address);
        assert all == [ChangeUtxo(txId, 0, outs[0])] && all[..0] == [];
      }
    } else {
      SumPaying(w, txId, outs[..n], address);
      var all := OutputsPaying(w, txId, outs, address);
      assert all == front + [ChangeUtxo(txId, n, outs[n])] && all[..|front|] == front;
      assert outs[1..][..n - 1] == outs[..n][1..];
    }
  }

  lemma {:induction false} SumMatched(entries: UtxoRegistry, us: seq<Utxo>)
    requires |entries| == |us| && forall i :: 0 <= i < |us| ==> entries[i].amount == us[i].amount
    ensures SumAmounts(entries) == SumUtxos(us)
  {
    if us != [] {
      SumMatched(entries[..|us| - 1], us[..|us| - 1]);
    }
  }

  /** Satoshis in the registry. */
  function Reserve(s: State): int {
    SumAmounts(s.utxoList)
  }

  /** Satoshis the supply record accounts for. */
  function Accounted(s: State): int {
    s.supply.activeSupply + s.supply.feeSupply
  }

  /** No unchecked int64 operation of the withdrawal wraps. */
  predicate NoWrap(plan: Plan) {
    var leftover := plan.inputs.total - plan.amount;
    && InInt64(plan.amount + plan.vscFee + plan.spend.fee)
    && InInt64(leftover)
    && (leftover > DUST_THRESHOLD ==> InInt64(leftover - plan.spend.fee))
  }

  /** How far reserve and account move apart in one withdrawal: without change outputs the
      sender pays the computed fee while the network takes the leftover; and a destination that
      is the change address is indexed as change although it was paid out. */
  function Drift(w: Btc, plan: Plan): int {
    var leftover := plan.inputs.total - plan.amount;
    (if leftover > DUST_THRESHOLD then 0 else plan.spend.fee - leftover)
    + (if PaysChangeAddress(w, plan) then plan.amount else 0)
  }

  predicate PaysChangeAddress(w: Btc, plan: Plan) {
    |plan.spend.tx.txOut| > 0 && PaysTo(w, plan.spend.tx.txOut[0], w.changeAddress)
  }

  /** The spend of a plan, spelled out. */
  lemma PlanSpend(w: Btc, s: State, env: Env, p: TransferParams, plan: Plan) returns (destScript: Bytes)
    requires Sane(w) && PlanUnmap(w, s, env, p) == Ok(plan)
    ensures var outs := plan.spend.tx.txOut;
      && w.decodeAddress(p.to) == Some(destScript)
      && outs == SpendOutputs(w, s.supply.baseFeeRate, plan.spent, plan.inputs.total, destScript, plan.amount)
      && |outs| == 1 + ChangeCount(Wrap64(plan.inputs.total - plan.amount)) <= 5
      && outs[0] == TxOut(plan.amount, destScript)
      && (forall i :: 1 <= i < |outs| ==> outs[i].pkScript == ChangeScript(w))
    ensures SpendableInputs(w, plan.spent)
    ensures plan.spend.tx.txIn == Outpoints(plan.spent)
    ensures plan.spend.fee == SpendFee(w, s.supply.baseFeeRate, plan.spent, plan.inputs.total, destScript, plan.amount)
    ensures plan.spend.signing == SigningData(w.serialize(plan.spend.tx), SigHashes(w, plan.spend.tx, plan.spent))
  {
    hide PlanUnmap, SpendFee, SigHashes, SpendOutputs, ChangeCount, Sane, SpendableInputs, SelectInputs, CalcVscFee;
    hide LoadInputs, Outpoints;
    PlanParts(w, s, env, p, plan);
    destScript := w.decodeAddress(p.to).value;
    SpendShape(w, s.supply.baseFeeRate, plan.spent, plan.inputs.total, destScript, plan.amount);
  }

  lemma ChangePaysBack(w: Btc, outs: seq<TxOut>)
    requires Sane(w) && forall i :: 1 <= i < |outs| ==> outs[i].pkScript == ChangeScript(w)
    ensures forall i :: 1 <= i < |outs| ==> PaysTo(w, outs[i], w.changeAddress)
  {
  }

  /** Value of the change a withdrawal indexes. */
  lemma ChangeValue(w: Btc, s: State, env: Env, p: TransferParams, plan: Plan, found: seq<Utxo>)
    requires Sane(w) && PlanUnmap(w, s, env, p) == Ok(plan) && NoWrap(plan)
    requires 1 <= |plan.spend.tx.txOut| <= 0x1_0000_0000
    requires found == OutputsPaying(w, TxID(w, plan.spend.tx), plan.spend.tx.txOut, w.changeAddress)
    ensures SumUtxos(found) == plan.inputs.total - plan.amount - plan.spend.fee + Drift(w, plan)
  {
    hide PlanUnmap, ChangeScript, SpendFee, OutputsPaying, SpendOutputs, SumUtxos, TxID, Sane, SpendableInputs;
    hide SigHashes, PaysTo;
    var destScript := PlanSpend(w, s, env, p, plan);
    var outs := plan.spend.tx.txOut;
    ChangePaysBack(w, outs);
    SumPaying(w, TxID(w, plan.spend.tx), outs, w.changeAddress);
    if plan.inputs.total - plan.amount > DUST_THRESHOLD {
      SpendConserves(w, s.supply.baseFeeRate, plan.spent, plan.inputs.total, destScript, plan.amount);
    } else {
      assert outs[1..] == [];
    }
  }

  /** One withdrawal moves the difference between reserve and accounted supply by the drift alone. */
  lemma UnmapReserve(w: Btc, s: State, env: Env, p: TransferParams, plan: Plan, s': State)
    requires Completes(w, s, env, p, plan, s') && Coherent(s) && NoWrap(plan)
    ensures Reserve(s') - Accounted(s') == Reserve(s) - Accounted(s) + Drift(w, plan)
  {
    hide Unmap, PlanUnmap, OutputsPaying, Drift, Sane, CountersInRange, CalcVscFee, LoadInputs, BuildSpend;
    hide SelectInputs;
    hide SumUtxos, SumAmounts, Deduct, TxID, Covers, Replaced;
    var found, added := UnmapRegistry(w, s, env, p, plan, s');
    PlanParts(w, s, env, p, plan);
    ChangeValue(w, s, env, p, plan, found);
    UnmapOther(w, s, env, p, plan, s');
    WrapSum(plan.amount + plan.vscFee, plan.spend.fee);
    var taken := SelectionSound(s.utxoList, plan.amount, s.supply.baseFeeRate);
    ReplacedSum(s, s', taken, found, added);
  }

  lemma ReplacedSum(s: State, s': State, taken: UtxoRegistry, found: seq<Utxo>, added: UtxoRegistry)
    requires DistinctIds(s.utxoList) && DistinctIds(taken) && forall e :: e in taken ==> e in s.utxoList
    requires Replaced(s, s', Ids(taken), found, added)
    ensures Reserve(s') == Reserve(s) - SumAmounts(taken) + SumUtxos(found)
  {
    SumWithoutAll(s.utxoList, taken);
    SumMatched(added, found);
    SumAppend(WithoutAll(s.utxoList, Ids(taken)), added);
  }

  /** The tables a withdrawal changes besides registry and records. */
  lemma UnmapOther(w: Btc, s: State, env: Env, p: TransferParams, plan: Plan, s': State)
    requires Completes(w, s, env, p, plan, s')
    ensures var txId := TxID(w, plan.spend.tx);
      && Deduct(env, s.balances, env.sender, plan.FinalAmt()) == Ok(s'.balances)
      && InInt64(s.supply.activeSupply - plan.FinalAmt()) && InInt64(s.supply.userSupply - plan.FinalAmt())
      && InInt64(s.supply.feeSupply + plan.vscFee)
      && s' == s.(utxoList := s'.utxoList, utxos := s'.utxos, unconfirmedNextId := s'.unconfirmedNextId,
                  balances := s'.balances,
                  txSpends := s.txSpends[txId := plan.spend.signing], txSpendsList := s.txSpendsList + [txId],
                  supply := SystemSupply(s.supply.activeSupply - plan.FinalAmt(), s.supply.userSupply - plan.FinalAmt(),
                                         s.supply.feeSupply + plan.vscFee, s.supply.baseFeeRate))
  {
    hide Unmap, PlanUnmap, Sane, OutputsPaying, Deduct, Slots, AddChange, StorableSlots, TxID, WithoutAll;
    var balances, found, s1 := UnmapStages(w, s, env, p, plan, s');
    AddChangeKeeps(s.(balances := balances), Slots(found, |plan.spend.tx.txOut| - 1));
    SettleKeeps(RecordSpend(RemoveInputs(s1, plan.inputs.ids), TxID(w, plan.spend.tx), plan.spend.signing),
                plan.FinalAmt(), plan.vscFee);
  }

  lemma {:induction false} AddChangeKeeps(s: State, slots: seq<Option<Utxo>>)
    requires CountersInRange(s) && StorableSlots(slots) && AddChange(s, slots).Ok?
    ensures var s' := AddChange(s, slots).value;
      s' == s.(utxoList := s'.utxoList, utxos := s'.utxos, unconfirmedNextId := s'.unconfirmedNextId)
    decreases |slots|
  {
    if slots != [] {
      var a := AllocateUnconfirmed(s.unconfirmedNextId, s.utxos.Keys).value;
      AddChangeKeeps(WithChange(s, a, slots[0].value), slots[1..]);
    }
  }

  /** Without change outputs the leftover lies between the estimated fee and the dust threshold. */
  lemma LeftoverBound(w: Btc, s: State, env: Env, p: TransferParams, plan: Plan)
    requires Sane(w) && Coherent(s) && PlanUnmap(w, s, env, p) == Ok(plan)
    requires plan.inputs.total - plan.amount <= DUST_THRESHOLD
    requires InInt64(plan.amount + EstimateFee(|plan.inputs.ids|, plan.amount, plan.inputs.total, s.supply.baseFeeRate))
    ensures EstimateFee(|plan.inputs.ids|, plan.amount, plan.inputs.total, s.supply.baseFeeRate)
         <= plan.inputs.total - plan.amount <= DUST_THRESHOLD
  {
    PlanParts(w, s, env, p, plan);
    hide PlanUnmap, SelectInputs, EstimateFee, Sane;
    var taken := SelectionSound(s.utxoList, plan.amount, s.supply.baseFeeRate);
  }

  // ---------------------------------------------------------------- no empty slot

  /** Every output but the first pays the change address: as many are found, or one more. */
  lemma {:induction false} PayingCount(w: Btc, txId: TxId, outs: seq<TxOut>, address: string)
    requires 1 <= |outs| <= 0x1_0000_0000
    requires forall i :: 1 <= i < |outs| ==> PaysTo(w, outs[i], address)
    ensures |OutputsPaying(w, txId, outs, address)| == |outs| - 1 + if PaysTo(w, outs[0], address) then 1 else 0
  {
    hide PaysTo;
    var n := |outs| - 1;
    if n == 0 {
      assert OutputsPaying(w, txId, outs[..0], address) == [];
    } else {
      PayingCount(w, txId, outs[..n], address);
    }
  }

  ghost predicate AllFilled(slots: seq<Option<Utxo>>) {
    forall i :: 0 <= i < |slots| ==> slots[i].Some?
  }

  lemma {:induction false} FilledSlotsNeverTrap(s: State, slots: seq<Option<Utxo>>)
    requires CountersInRange(s) && StorableSlots(slots)
    requires AllFilled(slots)
    ensures AddChange(s, slots) != Err(Trap)
    decreases |slots|
  {
    if slots != [] {
      var a := AllocateUnconfirmed(s.unconfirmedNextId, s.utxos.Keys);
      if a.Ok? {
        FilledSlotsNeverTrap(WithChange(s, a.value, slots[0].value), slots[1..]);
      }
    }
  }

  /** Change indexing of every planned withdrawal, completed or not: it finds all change outputs, and
      one more exactly for a destination that is the change address, so no slot is left empty and no
      nil record is ever dereferenced. */
  lemma PlanFillsSlots(w: Btc, s: State, env: Env, p: TransferParams, plan: Plan)
    requires Sane(w) && CountersInRange(s) && PlanUnmap(w, s, env, p) == Ok(plan)
    ensures 1 <= |plan.spend.tx.txOut| <= 5
    ensures var found := OutputsPaying(w, TxID(w, plan.spend.tx), plan.spend.tx.txOut, w.changeAddress);
      && |found| == |plan.spend.tx.txOut| - 1 + (if PaysChangeAddress(w, plan) then 1 else 0)
      && AllFilled(Slots(found, |plan.spend.tx.txOut| - 1))
    ensures ExecuteUnmap(w, s, env, plan) != Err(Trap)
  {
    hide PlanUnmap, Sane, SpendOutputs, SigHashes, SpendFee, ChangeCount, Outpoints, OutputsPaying, Slots, TxID, PaysTo;
    hide ChangeScript;
    hide SpendableInputs, AddChange, Deduct, RemoveInputs, RecordSpend, CountersInRange, StorableSlots;
    hide EachHasOneAddress;
    PlanOutputs(w, s, env, p, plan);
    var destScript := PlanSpend(w, s, env, p, plan);
    var tx := plan.spend.tx;
    ChangePaysBack(w, tx.txOut);
    PayingCount(w, TxID(w, tx), tx.txOut, w.changeAddress);
    var found := OutputsPaying(w, TxID(w, tx), tx.txOut, w.changeAddress);
    var slots := Slots(found, |tx.txOut| - 1);
    EmptySlotRemains(found, |tx.txOut| - 1);
    DeductErrors(env, s.balances, env.sender, plan.FinalAmt());
    ChangeStorable(w, tx);
    var balances := Deduct(env, s.balances, env.sender, plan.FinalAmt());
    if balances.Ok? && ChangeSlots(w, tx, w.changeAddress).Ok? {
      BalancesAside(s, balances.value);
      FilledSlotsNeverTrap(s.(balances := balances.value), slots);
    }
  }

  lemma BalancesAside(s: State, b: Balances)
    requires CountersInRange(s)
    ensures CountersInRange(s.(balances := b))
  {
  }

  // ---------------------------------------------------------------- user ledger

  /** A withdrawal lowers the sender's balance, the user supply and the active supply by the same
      final amount, so the user ledger holds afterwards - whatever the unchecked sums did. */
  lemma UnmapUserLedger(w: Btc, s: State, env: Env, p: TransferParams, plan: Plan, s': State)
    requires Completes(w, s, env, p, plan, s') && UserLedger(s)
    ensures UserLedger(s')
    ensures plan.FinalAmt() <= GetBal(s.balances, env.sender)
  {
    hide Unmap, PlanUnmap, Sane, Deduct;
    UnmapOther(w, s, env, p, plan, s');
    DeductEffect(env, s.balances, env.sender, plan.FinalAmt());
  }

  /** Who pays what for a completed withdrawal in which nothing wraps: the sender pays amount, protocol fee and
      network fee, nobody else pays anything, both supplies fall by that sum and the fee supply rises by the
      protocol fee; the destination gets the amount in the first output. */
  lemma WithdrawalPays(w: Btc, s: State, env: Env, p: TransferParams, plan: Plan, s': State, account: string)
    requires Completes(w, s, env, p, plan, s') && AllPositive(s.balances) && NoWrap(plan)
    ensures ParseInt64(p.amount) == Some(plan.amount) && env.sender in env.requiredAuths
    ensures plan.spend.tx.txOut != [] && w.decodeAddress(p.to).Some?
      && plan.spend.tx.txOut[0] == TxOut(plan.amount, w.decodeAddress(p.to).value)
    ensures var paid := plan.amount + plan.vscFee + plan.spend.fee;
      && GetBal(s'.balances, account) == GetBal(s.balances, account) - (if account == env.sender then paid else 0)
      && s'.supply.activeSupply == s.supply.activeSupply - paid
      && s'.supply.userSupply == s.supply.userSupply - paid
      && s'.supply.feeSupply == s.supply.feeSupply + plan.vscFee
  {
    hide Unmap, PlanUnmap, Sane, Deduct, SumBalances, SpendOutputs, SigHashes, SpendFee, ChangeCount, Outpoints;
    hide ParseInt64;
    UnmapOther(w, s, env, p, plan, s');
    DeductEffect(env, s.balances, env.sender, plan.FinalAmt());
    WrapSum(plan.amount + plan.vscFee, plan.spend.fee);
    var destScript := PlanSpend(w, s, env, p, plan);
    AskedAmount(w, s, env, p, plan);
  }

  lemma AskedAmount(w: Btc, s: State, env: Env, p: TransferParams, plan: Plan)
    requires Sane(w) && PlanUnmap(w, s, env, p) == Ok(plan)
    ensures ParseInt64(p.amount) == Some(plan.amount) && env.sender in env.requiredAuths
  {
    hide Sane, SelectInputs, CalcVscFee, BuildSpend, ParseInt64;
  }

  /** Under the user ledger, once the sender's balance covered a non-negative final amount the
      two supply subtractions cannot fail or go negative. */
  lemma SupplyCoversDeduction(s: State, env: Env, finalAmt: Int64)
    requires UserLedger(s) && 0 <= finalAmt && Deduct(env, s.balances, env.sender, finalAmt).Ok?
    ensures SafeSubtract64(s.supply.activeSupply, finalAmt).Ok? && SafeSubtract64(s.supply.userSupply, finalAmt).Ok?
    ensures 0 <= s.supply.activeSupply - finalAmt && 0 <= s.supply.userSupply - finalAmt
  {
    DeductEffect(env, s.balances, env.sender, finalAmt);
    BalanceBelowSum(s.balances, env.sender);
  }

  /** Under the user ledger, a withdrawal whose non-negative final amount was deducted fails in the
      supply update only if the fee supply overflows. */
  lemma SettleFailsOnFeesOnly(s: State, env: Env, s3: State, finalAmt: Int64, vscFee: Int64)
    requires UserLedger(s) && 0 <= finalAmt && Deduct(env, s.balances, env.sender, finalAmt).Ok?
    requires s3.supply == s.supply
    ensures Settle(s3, finalAmt, vscFee).Ok? <==> InInt64(s.supply.feeSupply + vscFee)
  {
    SupplyCoversDeduction(s, env, finalAmt);
    hide Deduct, UserLedger;
  }

  /** When a planned withdrawal completes: exactly when the deduction does, every output has one
      address, the unconfirmed pool takes all change, and the fee supply does not overflow. */
  lemma CompletionExact(w: Btc, s: State, env: Env, plan: Plan)
    requires Sane(w) && CountersInRange(s) && UserLedger(s) && 0 <= plan.FinalAmt()
    requires 1 <= |plan.spend.tx.txOut| <= 0x1_0000_0000
    ensures ExecuteUnmap(w, s, env, plan).Ok? <==>
      && Deduct(env, s.balances, env.sender, plan.FinalAmt()).Ok?
      && ChangeSlots(w, plan.spend.tx, w.changeAddress).Ok?
      && (ChangeStorable(w, plan.spend.tx);
          var funded := s.(balances := Deduct(env, s.balances, env.sender, plan.FinalAmt()).value);
          AddChange(funded, ChangeSlots(w, plan.spend.tx, w.changeAddress).value).Ok?)
      && InInt64(s.supply.feeSupply + plan.vscFee)
  {
    hide Sane, Deduct, ChangeSlots, AddChange, UserLedger, StorableSlots, RemoveInputs, TxID, Settle;
    ChangeStorable(w, plan.spend.tx);
    var balances := Deduct(env, s.balances, env.sender, plan.FinalAmt());
    var slots := ChangeSlots(w, plan.spend.tx, w.changeAddress);
    if balances.Ok? && slots.Ok? && AddChange(s.(balances := balances.value), slots.value).Ok? {
      var funded := s.(balances := balances.value);
      AddChangeKeeps(funded, slots.value);
      var s1 := AddChange(funded, slots.value).value;
      var s2 := RemoveInputs(s1, plan.inputs.ids);
      assert s2.supply == s.supply by { InputsAside(s1, plan.inputs.ids); }
      SettleFailsOnFeesOnly(s, env, RecordSpend(s2, TxID(w, plan.spend.tx), plan.spend.signing), plan.FinalAmt(),
        plan.vscFee);
    }
  }

  lemma InputsAside(s: State, ids: seq<Byte>)
    ensures RemoveInputs(s, ids).supply == s.supply
  {
  }

  /** With a transaction id not pending before, the pending list keeps naming the pending spends. */
  lemma UnmapSpendsListed(w: Btc, s: State, env: Env, p: TransferParams, plan: Plan, s': State)
    requires Completes(w, s, env, p, plan, s') && SpendsListed(s)
    requires TxID(w, plan.spend.tx) !in s.txSpends
    ensures SpendsListed(s')
  {
    hide Unmap, PlanUnmap, Sane, Deduct, TxID;
    UnmapOther(w, s, env, p, plan, s');
  }
}
