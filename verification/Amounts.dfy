// When registry amounts stay non-negative over a run: the fee estimate can fall
// short of the real fee, and change then pays for the difference.

module Amounts {
  import opened Wrappers
  import opened Bytes
  import opened Text
  import opened Types
  import opened World
  import opened Accounts
  import opened Registry
  import opened Selection
  import opened Spend
  import opened State
  import opened Pools
  import opened Promotion
  import opened Unmapping
  import opened Mapping
  import opened Crediting
  import opened Blocklist
  import opened Machine
  import opened Runs
  import opened Bounds

  ghost predicate NonNegativeEntries(es: UtxoRegistry) {
    forall e :: e in es ==> e.amount >= 0
  }

  // ---------------------------------------------------------------- withdrawals

  /** What a withdrawal registers is non-negative exactly when its change outputs are. */
  lemma FoundAmounts(w: Btc, txId: TxId, outs: seq<TxOut>, found: seq<Utxo>)
    requires 1 <= |outs| <= 0x1_0000_0000 && outs[0].value >= 0
    requires forall i :: 1 <= i < |outs| ==> PaysTo(w, outs[i], w.changeAddress)
    requires found == OutputsPaying(w, txId, outs, w.changeAddress)
    ensures (forall u :: u in found ==> u.amount >= 0) <==> forall i :: 1 <= i < |outs| ==> outs[i].value >= 0
  {
    hide PaysTo, OutputsPaying;
    if forall u :: u in found ==> u.amount >= 0 {
      forall i | 1 <= i < |outs| ensures outs[i].value >= 0 {
        PayingComplete(w, txId, outs, w.changeAddress, i);
      }
    }
    if forall i :: 1 <= i < |outs| ==> outs[i].value >= 0 {
      forall u | u in found ensures u.amount >= 0 {
        PayingMember(w, txId, outs, w.changeAddress, u);
      }
    }
  }

  lemma ReplacedAmounts(s: State, s': State, ids: seq<Byte>, found: seq<Utxo>, added: UtxoRegistry)
    requires Replaced(s, s', ids, found, added) && NonNegativeEntries(s.utxoList)
    ensures NonNegativeEntries(s'.utxoList) <==> forall u :: u in found ==> u.amount >= 0
  {
    var kept := WithoutAll(s.utxoList, ids);
    forall e | e in kept ensures e.amount >= 0 {
      WithoutAllMember(s.utxoList, ids, e);
    }
    hide WithoutAll;
    assert forall e :: e in s'.utxoList <==> e in kept || e in added;
    if NonNegativeEntries(s'.utxoList) {
      forall u | u in found ensures u.amount >= 0 {
        var i :| 0 <= i < |found| && found[i] == u;
        assert added[i] in s'.utxoList;
      }
    }
    if forall u :: u in found ==> u.amount >= 0 {
      forall e | e in added ensures e.amount >= 0 {
        var i :| 0 <= i < |added| && added[i] == e;
        assert found[i] in found;
      }
    }
  }

  /** A completed withdrawal leaves the registry non-negative exactly when it was affordable. */
  lemma UnmapAmounts(w: Btc, s: State, env: Env, p: TransferParams, plan: Plan, s': State)
    requires Completes(w, s, env, p, plan, s') && Coherent(s) && ModerateRate(s) && Moderate(w, p)
    requires NonNegativeEntries(s.utxoList)
    ensures NonNegativeEntries(s'.utxoList) <==> Affordable(w, s.supply.baseFeeRate, p, plan)
  {
    hide PlanUnmap, Unmap, Sane, Coherent, ModerateRate, Moderate, Affordable, OutputsPaying, PaysTo, Replaced;
    hide SpendOutputs, ChangeScript;
    hide NonNegativeEntries, SigHashes, SpendFee, ChangeCount, Outpoints, SpendableInputs, CountersInRange;
    assert Sane(w) && PlanUnmap(w, s, env, p) == Ok(plan);
    var found, added := UnmapRegistry(w, s, env, p, plan, s');
    var destScript := PlanSpend(w, s, env, p, plan);
    PlanAmount(w, s, env, p, plan);
    ChangePaysBack(w, plan.spend.tx.txOut);
    FoundAmounts(w, TxID(w, plan.spend.tx), plan.spend.tx.txOut, found);
    ReplacedAmounts(s, s', plan.inputs.ids, found, added);
    ModerateChange(w, s, env, p, plan);
  }

  // ---------------------------------------------------------------- deposits

  lemma {:induction false} CreditAllAmounts(w: Btc, p: Progress, req: MapRequest, slots: seq<Option<Utxo>>, i: nat,
                                            p': Progress)
    requires i <= |slots| && Ready(p.state, slots) && CreditAll(w, p, req, slots, i, false) == Ok(p')
    requires NonNegativeEntries(p.state.utxoList) && NonNegative(slots)
    ensures NonNegativeEntries(p'.state.utxoList)
    decreases |slots| - i
  {
    hide CreditBalances, Allocate;
    if i < |slots| {
      assert [slots[i]][0] == slots[i];
      CreditAllAmounts(w, CreditOne(w, p, req, i, slots[i], false).value, req, slots, i + 1, p');
    }
  }

  lemma PromotedAmounts(s: State, s1: State)
    requires |s1.utxoList| == |s.utxoList| && forall i :: 0 <= i < |s.utxoList| ==> SameCoin(s, s1, i)
    requires NonNegativeEntries(s.utxoList)
    ensures NonNegativeEntries(s1.utxoList)
  {
    forall e | e in s1.utxoList ensures e.amount >= 0 {
      var i :| 0 <= i < |s1.utxoList| && s1.utxoList[i] == e;
      assert SameCoin(s, s1, i);
      assert s.utxoList[i] in s.utxoList;
    }
  }

  lemma MapAmounts(w: Btc, s: State, req: MapRequest, s': State)
    requires CountersInRange(s) && Coherent(s) && WellFormed(w, req) && NonNegativeOutputs(req.tx)
    requires MapTx(w, s, req, false) == Ok(s') && NonNegativeEntries(s.utxoList)
    ensures NonNegativeEntries(s'.utxoList)
  {
    hide UpdateUtxoSpends, MatchingOutputs, TxID, Slots, VerifyTransaction, Coherent, NonNegativeEntries, NonNegative;
    hide SameCoin, Pays;
    hide TxOutpoints, Valued, SlotOutpoints, PoolFull;
    WellFormedBound(w, req);
    var value := ValuesOf(w, req.tx);
    var found := MatchingOutputs(w, req.registry, TxID(w, req.tx), req.tx.txOut);
    FoundFacts(w, req, found, value);
    SlotFacts(found, |req.registry|, value, TxOutpoints(w, req.tx));
    hide WellFormed, CommitsTo, NonNegativeOutputs;
    var slots, s1, promoted := MapStages(w, s, req, s');
    hide MapTx, StorableSlots;
    UpdateUtxoSpendsEffect(s, TxID(w, req.tx), s1, promoted);
    PromotedAmounts(s, s1);
    var p := CreditAll(w, Progress(s1, 0), req, slots, 0, false).value;
    CreditAllAmounts(w, Progress(s1, 0), req, slots, 0, p);
    hide CreditAll;
  }

  // ---------------------------------------------------------------- runs

  ghost predicate AffordableStep(w: Btc, s: State, a: Action)
    requires Sane(w) && CountersInRange(s) && WellFormedAction(w, a)
  {
    CompletedPlan(w, s, a).Some? ==> Affordable(w, s.supply.baseFeeRate, a.params, CompletedPlan(w, s, a).value)
  }

  /** Every completed withdrawal of the run was affordable. */
  ghost predicate AffordableRun(w: Btc, s: State, actions: seq<Action>)
    requires WellFormedRun(w, s, actions)
    decreases |actions|
  {
    actions == [] ||
    var front, last := actions[..|actions| - 1], actions[|actions| - 1];
    AffordableRun(w, s, front) && AffordableStep(w, Run(w, s, front), last)
  }

  /** The registry is non-negative after every action of the run. */
  ghost predicate NonNegativeThroughout(w: Btc, s: State, actions: seq<Action>)
    requires WellFormedRun(w, s, actions)
    decreases |actions|
  {
    NonNegativeEntries(Run(w, s, actions).utxoList)
    && (actions == [] || NonNegativeThroughout(w, s, actions[..|actions| - 1]))
  }

  lemma StepAmounts(w: Btc, s: State, a: Action)
    requires Sane(w) && WellFormedAction(w, a) && LedgerInv(s) && ModerateRate(s) && ModerateAction(w, a)
    requires a.MapAction? ==> NonNegativeOutputs(a.req.tx)
    requires NonNegativeEntries(s.utxoList)
    ensures NonNegativeEntries(Next(w, s, a).utxoList) <==> AffordableStep(w, s, a)
  {
    hide Sane, MapTx, WellFormed, Transfer, AddBlocks, Unmap, Coherent, UserLedger, NonNegativeOutputs, PlanUnmap;
    hide Affordable;
    hide NonNegativeEntries, ModerateRate, Moderate;
    if Step(w, s, a).Ok? {
      var s' := Step(w, s, a).value;
      match a
      case MapAction(req) => MapAmounts(w, s, req, s');
      case UnmapAction(env, p) =>
        var plan := UnmapCompletes(w, s, a);
        UnmapAmounts(w, s, env, p, plan, s');
      case TransferAction(_, _) =>
      case _ => AdministrativeKeeps(w, s, a, s');
    }
  }

  /** Registry amounts stay non-negative throughout a run within the bounds exactly when every
      completed withdrawal was affordable: its inputs paid for the size that the estimate missed. */
  lemma {:induction false} AmountsExact(w: Btc, s: State, actions: seq<Action>)
    requires WellFormedRun(w, s, actions) && LedgerInv(s) && NonNegativeDeposits(actions)
    requires ModerateRate(s) && ModerateRun(w, actions) && NonNegativeEntries(s.utxoList)
    ensures NonNegativeThroughout(w, s, actions) <==> AffordableRun(w, s, actions)
    decreases |actions|
  {
    hide Next, Sane, WellFormedAction, NonNegativeOutputs, ModerateAction, Coherent, UserLedger, NonNegativeEntries;
    hide AffordableStep;
    hide CountersInRange, ModerateRate;
    if actions != [] {
      var front, last := actions[..|actions| - 1], actions[|actions| - 1];
      AmountsExact(w, s, front);
      RunKeepsLedger(w, s, front);
      ModerateNoWrap(w, s, front);
      if NonNegativeThroughout(w, s, front) {
        LastNonNegative(w, s, front);
        StepAmounts(w, Run(w, s, front), last);
      }
    }
  }

  lemma LastNonNegative(w: Btc, s: State, actions: seq<Action>)
    requires WellFormedRun(w, s, actions) && NonNegativeThroughout(w, s, actions)
    ensures NonNegativeEntries(Run(w, s, actions).utxoList)
  {
  }
}
