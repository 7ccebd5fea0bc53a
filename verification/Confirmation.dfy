// What becomes of a spend's change when the spend is confirmed.

module Confirmation {
  import opened Wrappers
  import opened Int64
  import opened Bytes
  import opened Text
  import opened Types
  import opened Keys
  import opened World
  import opened Accounts
  import opened Registry
  import opened Selection
  import opened Spend
  import opened State
  import opened Promotion
  import opened Unmapping
  import opened Mapping
  import opened Crediting
  import opened Blocklist
  import opened Machine
  import opened Runs
  import opened Safety
  import opened Bounds

  // ---------------------------------------------------------------- numbered hashes

  /** The hashes of every pending spend carry the numbers 0 to n - 1. */
  ghost predicate PendingNumbered(s: State) {
    forall t :: t in s.txSpends ==> Numbered(s.txSpends[t].unsignedSigHashes)
  }

  /** A withdrawal stores one numbered hash for each of its inputs. */
  lemma PlanNumbered(w: Btc, s: State, env: Env, p: TransferParams, plan: Plan)
    requires Sane(w) && Coherent(s) && PlanUnmap(w, s, env, p) == Ok(plan)
    ensures Numbered(plan.spend.signing.unsignedSigHashes)
    ensures 1 <= |plan.inputs.ids| <= 256
    ensures |plan.spend.signing.unsignedSigHashes| == |plan.spend.tx.txIn| == |plan.inputs.ids|
  {
    hide PlanUnmap, Coherent, SelectInputs, LoadInputs, BuildSpend, SpendFee, SpendOutputs, WitnessScript, Sane;
    hide ChangeScript, Covers;
    PlanParts(w, s, env, p, plan);
    var destScript := PlanSpend(w, s, env, p, plan);
    SelectedCount(s, plan.amount, s.supply.baseFeeRate, plan.inputs);
    LoadedCount(s.utxos, plan.inputs.ids, plan.spent);
    SomeInput(s, plan.amount, s.supply.baseFeeRate, plan.inputs);
  }

  lemma SomeInput(s: State, amount: Int64, rate: Int64, inputs: Inputs)
    requires Coherent(s) && SelectInputs(s.utxoList, amount, rate) == Ok(inputs)
    ensures |inputs.ids| >= 1
  {
    hide SelectInputs, Covers;
    var taken := SelectionSound(s.utxoList, amount, rate);
  }

  lemma StepKeepsNumbered(w: Btc, s: State, a: Action)
    requires Sane(w) && WellFormedAction(w, a) && LedgerInv(s) && PendingNumbered(s)
    ensures PendingNumbered(Next(w, s, a))
  {
    hide Sane, MapTx, WellFormed, Transfer, AddBlocks, Unmap, Coherent, UserLedger, PlanUnmap, Numbered, TxOutpoints;
    hide TxID;
    if Step(w, s, a).Ok? {
      var s' := Step(w, s, a).value;
      match a
      case MapAction(req) => MapFrame(w, s, req, s');
      case UnmapAction(env, p) =>
        var plan := UnmapCompletes(w, s, a);
        UnmapOther(w, s, env, p, plan, s');
        PlanNumbered(w, s, env, p, plan);
      case TransferAction(_, _) =>
      case _ => AdministrativeKeeps(w, s, a, s');
    }
  }

  /** Over every run: the hashes of every pending spend carry its input numbers 0 to n - 1. */
  lemma {:induction false} RunKeepsNumbered(w: Btc, s: State, actions: seq<Action>)
    requires WellFormedRun(w, s, actions) && LedgerInv(s) && NonNegativeDeposits(actions) && PendingNumbered(s)
    ensures PendingNumbered(Run(w, s, actions))
    decreases |actions|
  {
    hide LedgerInv, Next, Sane, WellFormedAction, NonNegativeOutputs, PendingNumbered;
    if actions != [] {
      var front := actions[..|actions| - 1];
      RunKeepsNumbered(w, s, front);
      RunKeepsLedger(w, s, front);
      StepKeepsNumbered(w, Run(w, s, front), actions[|actions| - 1]);
    }
  }

  /** So whatever happened before, a confirmation promotes exactly the unconfirmed outputs with a number
      below the input count of the spend. */
  lemma ConfirmationInRun(w: Btc, actions: seq<Action>, txId: TxId, s': State)
    requires WellFormedRun(w, EmptyState(), actions) && NonNegativeDeposits(actions)
    requires var s := Run(w, EmptyState(), actions); txId in s.txSpends && UpdateUtxoSpends(s, txId) == (s', true)
    ensures var s := Run(w, EmptyState(), actions);
      var n := |s.txSpends[txId].unsignedSigHashes|;
      && |s'.utxoList| == |s.utxoList|
      && forall i :: 0 <= i < |s.utxoList| ==>
           && SameCoin(s, s', i)
           && var u := s.utxos[s.utxoList[i].id];
           if u.txId == txId && u.vout < n && !IsConfirmed(s.utxoList[i])
           then IsConfirmed(s'.utxoList[i]) else s'.utxoList[i] == s.utxoList[i]
  {
    InitialLedger();
    assert PendingNumbered(EmptyState());
    hide EmptyState, Run, WellFormedRun, NonNegativeDeposits, UpdateUtxoSpends, Coherent, UserLedger, Numbered;
    hide SameCoin;
    RunKeepsLedger(w, EmptyState(), actions);
    RunKeepsNumbered(w, EmptyState(), actions);
    ConfirmationExact(Run(w, EmptyState(), actions), txId, s');
  }

  /** Position i of the registry still holds the same coin: same amount, same record. */
  ghost predicate KeepsCoin(s: State, s': State, i: nat)
    requires i < |s.utxoList| <= |s'.utxoList|
  {
    && s'.utxoList[i].amount == s.utxoList[i].amount
    && s.utxoList[i].id in s.utxos && s'.utxoList[i].id in s'.utxos
    && s'.utxos[s'.utxoList[i].id] == s.utxos[s.utxoList[i].id]
  }

  /** What a completed map call does to coins already registered, deposits apart: with its transaction
      pending, the unconfirmed outputs of that transaction with a number below the input count of the spend
      become confirmed and the pending record goes; the record stays only if the confirmed pool ran full.
      Otherwise nothing happens to them. */
  lemma CallConfirms(w: Btc, s: State, req: MapRequest, s': State, i: nat)
    requires LedgerInv(s) && PendingNumbered(s) && WellFormed(w, req) && NonNegativeOutputs(req.tx)
    requires MapTx(w, s, req, false) == Ok(s') && i < |s.utxoList|
    ensures |s.utxoList| <= |s'.utxoList| && KeepsCoin(s, s', i)
    ensures var txId := TxID(w, req.tx);
      && (txId !in s.txSpends ==> s'.utxoList[i] == s.utxoList[i] && s'.txSpends == s.txSpends)
      && (txId in s.txSpends && txId in s'.txSpends ==> PoolFull(s'))
      && (txId in s.txSpends && txId !in s'.txSpends ==>
           && s'.txSpends == s.txSpends - {txId}
           && var u := s.utxos[s.utxoList[i].id];
              if u.txId == txId && u.vout < |s.txSpends[txId].unsignedSigHashes| && !IsConfirmed(s.utxoList[i])
              then IsConfirmed(s'.utxoList[i]) else s'.utxoList[i] == s.utxoList[i])
  {
    hide UpdateUtxoSpends, MatchingOutputs, TxID, Slots, VerifyTransaction, WellFormed, NonNegativeOutputs, Numbered;
    hide Coherent, UserLedger, SumValues, SlotOutpoints, SameCoin, Pays, PoolFull, KeepsCoin;
    var slots, s1, promoted := MapStages(w, s, req, s');
    UpdateUtxoSpendsEffect(s, TxID(w, req.tx), s1, promoted);
    var value := SlotValues(w, req, slots);
    CreditingKeeps(w, s1, req, slots, s', value);
    hide MapTx, StorableSlots;
    CoinKept(s, s1, s', i);
    assert s'.utxoList[i] == s1.utxoList[i];
    if TxID(w, req.tx) in s.txSpends {
      if promoted {
        ConfirmationExact(s, TxID(w, req.tx), s1);
      } else {
        StaysFull(s1, s');
      }
    }
  }

  lemma StaysFull(s: State, s': State)
    requires PoolFull(s) && forall id :: id in s.utxos ==> id in s'.utxos
    ensures PoolFull(s')
  {
  }

  lemma CoinKept(s: State, s1: State, s': State, i: nat)
    requires i < |s.utxoList| == |s1.utxoList| && SameCoin(s, s1, i)
    requires s1.utxoList <= s'.utxoList
    requires forall id :: id in s1.utxos ==> id in s'.utxos && s'.utxos[id] == s1.utxos[id]
    ensures KeepsCoin(s, s', i) && s'.utxoList[i] == s1.utxoList[i]
  {
  }

  lemma SlotValues(w: Btc, req: MapRequest, slots: seq<Option<Utxo>>) returns (value: Outpoint -> int)
    requires WellFormed(w, req) && NonNegativeOutputs(req.tx)
    requires slots == Slots(MatchingOutputs(w, req.registry, TxID(w, req.tx), req.tx.txOut), |req.registry|)
    ensures Valued(slots, value)
  {
    WellFormedBound(w, req);
    hide MatchingOutputs, TxID, Slots, WellFormed, NonNegativeOutputs, SlotOutpoints, TxOutpoints, CommitsTo;
    hide NonNegative, Valued;
    value := ValuesOf(w, req.tx);
    var found := MatchingOutputs(w, req.registry, TxID(w, req.tx), req.tx.txOut);
    FoundFacts(w, req, found, value);
    SlotFacts(found, |req.registry|, value, TxOutpoints(w, req.tx));
  }

  /** The crediting pass of a completed call keeps registry and records. */
  lemma CreditingKeeps(w: Btc, s: State, req: MapRequest, slots: seq<Option<Utxo>>, s': State, value: Outpoint -> int)
    requires Coherent(s) && Ready(s, slots) && Valued(slots, value)
    requires ProcessUtxos(w, s, req, slots, false) == Ok(s')
    ensures s.utxoList <= s'.utxoList && s'.txSpends == s.txSpends
    ensures forall id :: id in s.utxos ==> id in s'.utxos && s'.utxos[id] == s.utxos[id]
  {
    hide CreditAll, Balanced, Coherent, SumValues, SlotOutpoints, StorableSlots, Valued;
    var p := CreditAll(w, Progress(s, 0), req, slots, 0, false).value;
    CreditAllEffect(w, Progress(s, 0), req, slots, 0, false, p, value);
  }

  // ---------------------------------------------------------------- a spend and its change

  /** Every output of the spend that is registered is promoted. */
  ghost predicate AllPromoted(s1: State, s2: State, txId: TxId) {
    |s2.utxoList| == |s1.utxoList|
    && forall i :: 0 <= i < |s1.utxoList| && s1.utxoList[i].id in s1.utxos ==>
         (s1.utxos[s1.utxoList[i].id].txId == txId ==> IsConfirmed(s2.utxoList[i]))
  }

  /** A record of the spend is one of its outputs that pay the change address. */
  lemma OwnRecord(w: Btc, s: State, s1: State, ids: seq<Byte>, tx: MsgTx, found: seq<Utxo>, added: UtxoRegistry, i: nat)
    requires Coherent(s) && Coherent(s1) && Replaced(s, s1, ids, found, added) && 1 <= |tx.txOut| <= 0x1_0000_0000
    requires found == OutputsPaying(w, TxID(w, tx), tx.txOut, w.changeAddress)
    requires forall a :: a in s.utxos ==> s.utxos[a].txId != TxID(w, tx)
    requires i < |s1.utxoList|
    ensures s1.utxoList[i].id in s1.utxos
    ensures var u := s1.utxos[s1.utxoList[i].id];
      u.txId == TxID(w, tx) ==>
        && u.vout < |tx.txOut| && PaysTo(w, tx.txOut[u.vout], w.changeAddress) && !IsConfirmed(s1.utxoList[i])
  {
    hide OutputsPaying, TxID, PaysTo;
    assert s1.utxoList[i].id in IdSet(s1.utxoList);
    var a := s1.utxoList[i].id;
    var u := s1.utxos[a];
    if u.txId == TxID(w, tx) {
      var j := ReplacedOrigin(s, s1, ids, found, added, a);
      hide Coherent;
      assert found[j] in found && u == found[j].Stored();
      PayingMember(w, TxID(w, tx), tx.txOut, w.changeAddress, found[j]);
    }
  }

  /** Output v of the spend, if it pays the change address, is registered and unconfirmed. */
  lemma OwnEntry(w: Btc, s: State, s1: State, ids: seq<Byte>, tx: MsgTx, found: seq<Utxo>, added: UtxoRegistry, v: nat)
    returns (i: nat)
    requires Replaced(s, s1, ids, found, added) && v < |tx.txOut| <= 0x1_0000_0000
    requires found == OutputsPaying(w, TxID(w, tx), tx.txOut, w.changeAddress)
    requires PaysTo(w, tx.txOut[v], w.changeAddress)
    ensures i < |s1.utxoList| && !IsConfirmed(s1.utxoList[i]) && s1.utxoList[i].id in s1.utxos
    ensures s1.utxos[s1.utxoList[i].id].txId == TxID(w, tx) && s1.utxos[s1.utxoList[i].id].vout == v
  {
    hide OutputsPaying, TxID, PaysTo, WithoutAll;
    PayingComplete(w, TxID(w, tx), tx.txOut, w.changeAddress, v);
    var j :| 0 <= j < |found| && found[j] == ChangeUtxo(TxID(w, tx), v, tx.txOut[v]);
    i := |WithoutAll(s.utxoList, ids)| + j;
    assert s1.utxoList[i] == added[j];
  }

  /** In s1 every record of the transaction is unconfirmed, has a number below `outputs`, and one has the
      last number if there are several. */
  ghost predicate HoldsChange(s1: State, txId: TxId, outputs: nat) {
    && (forall i :: 0 <= i < |s1.utxoList| ==> s1.utxoList[i].id in s1.utxos && OwnOrOther(s1, i, txId, outputs))
    && (outputs >= 2 ==> HasOutput(s1, txId, outputs - 1))
  }

  ghost predicate OwnOrOther(s1: State, i: nat, txId: TxId, outputs: nat)
    requires i < |s1.utxoList| && s1.utxoList[i].id in s1.utxos
  {
    var u := s1.utxos[s1.utxoList[i].id];
    u.txId == txId ==> u.vout < outputs && !IsConfirmed(s1.utxoList[i])
  }

  ghost predicate IsOutput(s1: State, i: nat, txId: TxId, v: nat)
    requires i < |s1.utxoList|
  {
    s1.utxoList[i].id in s1.utxos
    && s1.utxos[s1.utxoList[i].id].txId == txId && s1.utxos[s1.utxoList[i].id].vout == v
  }

  ghost predicate HasOutput(s1: State, txId: TxId, v: nat) {
    exists i :: 0 <= i < |s1.utxoList| && IsOutput(s1, i, txId, v)
  }

  /** The outputs of the transaction with a number below n are confirmed; every other entry is as it was. */
  ghost predicate PromotedBelow(s1: State, s2: State, txId: TxId, n: nat) {
    |s2.utxoList| == |s1.utxoList|
    && forall i :: 0 <= i < |s1.utxoList| ==> SameCoin(s1, s2, i) && PromotedIfBelow(s1, s2, i, txId, n)
  }

  ghost predicate PromotedIfBelow(s1: State, s2: State, i: nat, txId: TxId, n: nat)
    requires i < |s1.utxoList| == |s2.utxoList| && s1.utxoList[i].id in s1.utxos
  {
    var u := s1.utxos[s1.utxoList[i].id];
    if u.txId == txId && u.vout < n then IsConfirmed(s2.utxoList[i]) else s2.utxoList[i] == s1.utxoList[i]
  }

  /** The transaction is pending with one numbered hash for each of n inputs. */
  ghost predicate PendingWith(s: State, txId: TxId, n: nat) {
    txId in s.txSpends && Numbered(s.txSpends[txId].unsignedSigHashes) && |s.txSpends[txId].unsignedSigHashes| == n
  }

  lemma PendingAfter(w: Btc, s: State, env: Env, p: TransferParams, plan: Plan, s1: State)
    requires Completes(w, s, env, p, plan, s1) && Coherent(s)
    ensures PendingWith(s1, TxID(w, plan.spend.tx), |plan.inputs.ids|) && |plan.inputs.ids| >= 1
  {
    hide Unmap, PlanUnmap, Sane, Coherent, Numbered, TxID, CountersInRange, Deduct;
    UnmapOther(w, s, env, p, plan, s1);
    PlanNumbered(w, s, env, p, plan);
  }

  lemma ChangeOutputsPay(w: Btc, s: State, env: Env, p: TransferParams, plan: Plan, s1: State)
    requires Completes(w, s, env, p, plan, s1)
    ensures 1 <= |plan.spend.tx.txOut| <= 0x1_0000_0000
    ensures forall i :: 1 <= i < |plan.spend.tx.txOut| ==> PaysTo(w, plan.spend.tx.txOut[i], w.changeAddress)
  {
    hide Unmap, PlanUnmap, Sane, SpendOutputs, SpendFee, SigHashes, ChangeScript, SpendableInputs, Outpoints, PaysTo;
    hide CountersInRange;
    PlanOutputs(w, s, env, p, plan);
    var destScript := PlanSpend(w, s, env, p, plan);
    ChangePaysBack(w, plan.spend.tx.txOut);
  }

  lemma ChangeHeld(w: Btc, s: State, env: Env, p: TransferParams, plan: Plan, s1: State)
    requires Completes(w, s, env, p, plan, s1) && Coherent(s)
    requires forall a :: a in s.utxos ==> s.utxos[a].txId != TxID(w, plan.spend.tx)
    ensures Coherent(s1) && CountersInRange(s1) && HoldsChange(s1, TxID(w, plan.spend.tx), |plan.spend.tx.txOut|)
  {
    hide Completes, Coherent, OutputsPaying, TxID, PaysTo, Replaced, CountersInRange;
    var tx := plan.spend.tx;
    var found, added := UnmapRegistry(w, s, env, p, plan, s1);
    ChangeOutputsPay(w, s, env, p, plan, s1);
    forall i | 0 <= i < |s1.utxoList|
      ensures s1.utxoList[i].id in s1.utxos && OwnOrOther(s1, i, TxID(w, tx), |tx.txOut|)
    {
      OwnRecord(w, s, s1, plan.inputs.ids, tx, found, added, i);
    }
    if |tx.txOut| >= 2 {
      var i := OwnEntry(w, s, s1, plan.inputs.ids, tx, found, added, |tx.txOut| - 1);
      assert IsOutput(s1, i, TxID(w, tx), |tx.txOut| - 1);
    }
  }

  lemma ConfirmedBelow(s1: State, s2: State, txId: TxId, n: nat, outputs: nat)
    requires Coherent(s1) && CountersInRange(s1) && PendingWith(s1, txId, n) && HoldsChange(s1, txId, outputs)
    requires UpdateUtxoSpends(s1, txId) == (s2, true)
    ensures txId !in s2.txSpends && Coherent(s2) && PromotedBelow(s1, s2, txId, n)
  {
    hide UpdateUtxoSpends, Coherent, Numbered;
    ConfirmationExact(s1, txId, s2);
    forall i | 0 <= i < |s1.utxoList| ensures SameCoin(s1, s2, i) && PromotedIfBelow(s1, s2, i, txId, n) {
      assert OwnOrOther(s1, i, txId, outputs);
    }
  }

  lemma AllBelow(s1: State, s2: State, txId: TxId, n: nat, outputs: nat)
    requires HoldsChange(s1, txId, outputs) && PromotedBelow(s1, s2, txId, n) && n >= 1
    ensures AllPromoted(s1, s2, txId) <==> outputs <= n
  {
    hide SameCoin;
    assert forall i :: 0 <= i < |s1.utxoList| ==>
      OwnOrOther(s1, i, txId, outputs) && PromotedIfBelow(s1, s2, i, txId, n);
    if n < outputs {
      var i :| 0 <= i < |s1.utxoList| && IsOutput(s1, i, txId, outputs - 1);
      assert OwnOrOther(s1, i, txId, outputs) && PromotedIfBelow(s1, s2, i, txId, n);
      assert s2.utxoList[i] == s1.utxoList[i];
    }
  }

  /** A change output of a spend that is not pending (any more), held unconfirmed if at all. */
  ghost predicate Stranded(s: State, o: Outpoint) {
    o.txId !in s.txSpends && forall a :: a in s.utxos && OutpointOf(s.utxos[a]) == o ==> a < UTXO_CONFIRMED_POOL_START
  }

  lemma PassedOver(s1: State, s2: State, txId: TxId, n: nat, outputs: nat, v: Uint32)
    requires HoldsChange(s1, txId, outputs) && PromotedBelow(s1, s2, txId, n) && n <= v
    requires Coherent(s2) && txId !in s2.txSpends
    ensures Stranded(s2, Outpoint(txId, v))
  {
    forall a | a in s2.utxos && OutpointOf(s2.utxos[a]) == Outpoint(txId, v) ensures a < UTXO_CONFIRMED_POOL_START {
      var i := EntryOf(s2, a);
      assert SameCoin(s1, s2, i) && PromotedIfBelow(s1, s2, i, txId, n) && OwnOrOther(s1, i, txId, outputs);
    }
  }

  /** A withdrawal and its confirmation. Of an n-input spend the change outputs with a number below n are
      promoted and no other entry changes; so all of them are promoted exactly when the spend has at
      most n outputs. The pending record is gone either way, and outputs with a number from n on can
      no longer be promoted. */
  lemma ChangePromotion(w: Btc, s: State, env: Env, p: TransferParams, plan: Plan, s1: State, s2: State)
    requires Completes(w, s, env, p, plan, s1) && Coherent(s)
    requires forall a :: a in s.utxos ==> s.utxos[a].txId != TxID(w, plan.spend.tx)
    requires CountersInRange(s1) && UpdateUtxoSpends(s1, TxID(w, plan.spend.tx)) == (s2, true)
    ensures TxID(w, plan.spend.tx) !in s2.txSpends
    ensures PromotedBelow(s1, s2, TxID(w, plan.spend.tx), |plan.inputs.ids|)
    ensures AllPromoted(s1, s2, TxID(w, plan.spend.tx)) <==> |plan.spend.tx.txOut| <= |plan.inputs.ids|
    ensures forall v: Uint32 :: |plan.inputs.ids| <= v ==> Stranded(s2, Outpoint(TxID(w, plan.spend.tx), v))
  {
    hide Completes, Coherent, CountersInRange, TxID, UpdateUtxoSpends, PendingWith, HoldsChange, PromotedBelow;
    hide AllPromoted;
    hide Stranded;
    ChangeHeld(w, s, env, p, plan, s1);
    PendingAfter(w, s, env, p, plan, s1);
    var txId, n, outputs := TxID(w, plan.spend.tx), |plan.inputs.ids|, |plan.spend.tx.txOut|;
    ConfirmedBelow(s1, s2, txId, n, outputs);
    AllBelow(s1, s2, txId, n, outputs);
    forall v: Uint32 | n <= v ensures Stranded(s2, Outpoint(txId, v)) {
      PassedOver(s1, s2, txId, n, outputs, v);
    }
  }

  /** A one-input spend to another address promotes nothing, and its pending record is gone. */
  lemma OneInputPromotesNothing(w: Btc, s: State, env: Env, p: TransferParams, plan: Plan, s1: State, s2: State)
    requires Completes(w, s, env, p, plan, s1) && Coherent(s)
    requires forall a :: a in s.utxos ==> s.utxos[a].txId != TxID(w, plan.spend.tx)
    requires |plan.inputs.ids| == 1 && !PaysChangeAddress(w, plan)
    requires CountersInRange(s1) && UpdateUtxoSpends(s1, TxID(w, plan.spend.tx)) == (s2, true)
    ensures TxID(w, plan.spend.tx) !in s2.txSpends && s2.utxoList == s1.utxoList
  {
    hide Completes, Coherent, CountersInRange, TxID, UpdateUtxoSpends, PendingWith, HoldsChange, PaysTo, Replaced;
    hide OutputsPaying;
    hide SameCoin;
    ChangeHeld(w, s, env, p, plan, s1);
    PendingAfter(w, s, env, p, plan, s1);
    ConfirmedBelow(s1, s2, TxID(w, plan.spend.tx), 1, |plan.spend.tx.txOut|);
    var found, added := UnmapRegistry(w, s, env, p, plan, s1);
    forall i | 0 <= i < |s1.utxoList| ensures s2.utxoList[i] == s1.utxoList[i] {
      OwnRecord(w, s, s1, plan.inputs.ids, plan.spend.tx, found, added, i);
      assert PromotedIfBelow(s1, s2, i, TxID(w, plan.spend.tx), 1);
    }
  }

  // ---------------------------------------------------------------- stranded change

  lemma PromotionStrands(s: State, s1: State, o: Outpoint, txId: TxId, ok: bool)
    requires CountersInRange(s) && Coherent(s) && Stranded(s, o) && UpdateUtxoSpends(s, txId) == (s1, ok)
    ensures Stranded(s1, o)
  {
    hide UpdateUtxoSpends, PoolFull;
    UpdateFrame(s, txId);
    UpdateUtxoSpendsEffect(s, txId, s1, ok);
    forall a | a in s1.utxos && OutpointOf(s1.utxos[a]) == o ensures a < UTXO_CONFIRMED_POOL_START {
      var i := EntryOf(s1, a);
      hide Coherent;
      assert SameCoin(s, s1, i);
    }
  }

  lemma DepositsStrand(s: State, s': State, seen: set<Outpoint>, o: Outpoint)
    requires Coherent(s) && Coherent(s') && Deposits(s, s', seen) && o !in seen && Stranded(s, o)
    ensures Stranded(s', o)
  {
    forall a | a in s'.utxos && OutpointOf(s'.utxos[a]) == o ensures a < UTXO_CONFIRMED_POOL_START {
      RecordOrigin(s, s', seen, a);
    }
    hide Coherent;
  }

  lemma MapStrands(w: Btc, s: State, req: MapRequest, s': State, o: Outpoint, out: Outpoint -> TxOut)
    requires LedgerInv(s) && WellFormed(w, req) && MapTx(w, s, req, false) == Ok(s')
    requires NonNegativeOutputs(req.tx) && OutputsAre(w, req.tx, out) && w.changeAddress !in req.registry
    requires Stranded(s, o) && IsChange(w, o, out)
    ensures Stranded(s', o)
  {
    assert |req.tx.txOut| <= 0x1_0000_0000;
    hide UpdateUtxoSpends, MatchingOutputs, TxID, TxOutpoints, Slots, VerifyTransaction, WellFormed, NonNegativeOutputs;
    hide Coherent, UserLedger, SumValues, OutputsAre, SlotOutpoints, Stranded, IsChange, SameCoin, Pays, PoolFull;
    var slots, s1, promoted := MapStages(w, s, req, s');
    hide MapTx, StorableSlots;
    var found := MatchingOutputs(w, req.registry, TxID(w, req.tx), req.tx.txOut);
    UpdateUtxoSpendsEffect(s, TxID(w, req.tx), s1, promoted);
    PromotionStrands(s, s1, o, TxID(w, req.tx), promoted);
    MatchedNotChange(w, req, found, |req.registry|, out);
    OutputsCommit(w, req.tx, out);
    FoundFacts(w, req, found, ValueIn(out));
    SlotFacts(found, |req.registry|, ValueIn(out), TxOutpoints(w, req.tx));
    var p := CreditAll(w, Progress(s1, 0), req, slots, 0, false).value;
    hide NonNegative, Valued;
    CreditAllEffect(w, Progress(s1, 0), req, slots, 0, false, p, ValueIn(out));
    hide CreditAll, Balanced;
    DepositsStrand(s1, p.state, SlotOutpoints(slots), o);
    SameTablesStrand(p.state, s', o);
  }

  lemma SameTablesStrand(s: State, s': State, o: Outpoint)
    requires Stranded(s, o) && s'.utxos == s.utxos && s'.txSpends == s.txSpends
    ensures Stranded(s', o)
  {
  }

  lemma UnmapStrands(w: Btc, s: State, env: Env, p: TransferParams, plan: Plan, s': State, o: Outpoint)
    requires Completes(w, s, env, p, plan, s') && LedgerInv(s) && Stranded(s, o)
    requires TxID(w, plan.spend.tx) != o.txId
    ensures Stranded(s', o)
  {
    hide PlanUnmap, Unmap, Sane, OutputsPaying, TxID, UserLedger, CountersInRange, Deduct;
    var found, added := UnmapRegistry(w, s, env, p, plan, s');
    UnmapOther(w, s, env, p, plan, s');
    hide Completes, Coherent;
    forall a | a in s'.utxos && OutpointOf(s'.utxos[a]) == o ensures a < UTXO_CONFIRMED_POOL_START {
      var i := ReplacedOrigin(s, s', plan.inputs.ids, found, added, a);
    }
  }

  /** What a step has to keep to: deposits commit to their outputs and are not made to the change
      address, and no new spend has the transaction id. */
  ghost predicate LeavesId(w: Btc, s: State, a: Action, txId: TxId, out: Outpoint -> TxOut)
    requires Sane(w) && CountersInRange(s) && WellFormedAction(w, a)
  {
    && (a.MapAction? ==>
         && NonNegativeOutputs(a.req.tx) && OutputsAre(w, a.req.tx, out) && w.changeAddress !in a.req.registry)
    && (CompletedPlan(w, s, a).Some? ==> TxID(w, CompletedPlan(w, s, a).value.spend.tx) != txId)
  }

  ghost predicate RunLeavesId(w: Btc, s: State, actions: seq<Action>, txId: TxId, out: Outpoint -> TxOut)
    requires WellFormedRun(w, s, actions)
    decreases |actions|
  {
    actions == [] ||
    var front, last := actions[..|actions| - 1], actions[|actions| - 1];
    RunLeavesId(w, s, front, txId, out) && LeavesId(w, Run(w, s, front), last, txId, out)
  }

  lemma StepStrands(w: Btc, s: State, a: Action, o: Outpoint, out: Outpoint -> TxOut)
    requires Sane(w) && WellFormedAction(w, a) && LedgerInv(s) && LeavesId(w, s, a, o.txId, out)
    requires Stranded(s, o) && IsChange(w, o, out)
    ensures Stranded(Next(w, s, a), o)
  {
    hide Sane, MapTx, WellFormed, Transfer, AddBlocks, Unmap, Coherent, UserLedger, NonNegativeOutputs, PlanUnmap;
    hide OutputsAre;
    hide Stranded, IsChange, TxID;
    if Step(w, s, a).Ok? {
      var s' := Step(w, s, a).value;
      match a
      case MapAction(req) => MapStrands(w, s, req, s', o, out);
      case UnmapAction(env, p) =>
        var plan := UnmapCompletes(w, s, a);
        UnmapStrands(w, s, env, p, plan, s', o);
      case TransferAction(_, _) => SameTablesStrand(s, s', o);
      case _ =>
        AdministrativeKeeps(w, s, a, s');
        SameTablesStrand(s, s', o);
    }
  }

  /** Change that its spend's confirmation passed over stays unconfirmed over every run that makes no new
      spend with that id: it can still be spent, but never be promoted. */
  lemma {:induction false} RunStrands(w: Btc, s: State, actions: seq<Action>, o: Outpoint, out: Outpoint -> TxOut)
    requires WellFormedRun(w, s, actions) && LedgerInv(s) && NonNegativeDeposits(actions)
    requires RunLeavesId(w, s, actions, o.txId, out) && Stranded(s, o) && IsChange(w, o, out)
    ensures Stranded(Run(w, s, actions), o)
    decreases |actions|
  {
    hide LedgerInv, Next, Sane, WellFormedAction, NonNegativeOutputs, LeavesId, Stranded, IsChange;
    if actions != [] {
      var front := actions[..|actions| - 1];
      RunStrands(w, s, front, o, out);
      RunKeepsLedger(w, s, front);
      StepStrands(w, Run(w, s, front), actions[|actions| - 1], o, out);
    }
  }
}
