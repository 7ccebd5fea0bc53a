// Safety over runs: no outpoint is spent twice, and nothing is credited
// without a proof under a stored header.

module Safety {
  import opened Wrappers
  import opened Int64
  import opened Bytes
  import opened Text
  import opened Types
  import opened Keys
  import opened World
  import opened Accounts
  import opened Registry
  import opened Selection
  import opened Spend
  import opened State
  import opened Promotion
  import opened Unmapping
  import opened Mapping
  import opened Crediting
  import opened Blocklist
  import opened Machine
  import opened Runs
  import Proof

  // ---------------------------------------------------------------- no double spend

  function InputsOf(plan: Option<Plan>): seq<Outpoint> {
    if plan.Some? then plan.value.spend.tx.txIn else []
  }

  /** The inputs of all spends the contract made over a run, in order. */
  function Spent(w: Btc, s: State, actions: seq<Action>): seq<Outpoint>
    requires WellFormedRun(w, s, actions)
    decreases |actions|
  {
    if actions == [] then [] else
    var front := actions[..|actions| - 1];
    Spent(w, s, front) + InputsOf(CompletedPlan(w, Run(w, s, front), actions[|actions| - 1]))
  }

  ghost predicate IsChange(w: Btc, o: Outpoint, out: Outpoint -> TxOut) {
    PaysTo(w, out(o), w.changeAddress)
  }

  /** Every outpoint the contract holds or spent came in as a deposit or is its own change. */
  ghost predicate Known(w: Btc, s: State, o: Outpoint, out: Outpoint -> TxOut) {
    o in s.observed || IsChange(w, o, out)
  }

  ghost predicate InjectiveRecords(s: State) {
    forall a, b :: a in s.utxos && b in s.utxos && a != b ==> OutpointOf(s.utxos[a]) != OutpointOf(s.utxos[b])
  }

  /** Outpoints held are distinct from each other and from those spent, which have no repeats. */
  ghost predicate Unspent(w: Btc, s: State, spent: seq<Outpoint>, out: Outpoint -> TxOut) {
    && InjectiveRecords(s)
    && (forall a :: a in s.utxos ==> OutpointOf(s.utxos[a]) !in spent && Known(w, s, OutpointOf(s.utxos[a]), out))
    && NoRepeats(spent)
    && forall o :: o in spent ==> Known(w, s, o, out)
  }

  /** No outpoint seen so far has this transaction id. */
  ghost predicate Unseen(s: State, spent: seq<Outpoint>, txId: TxId) {
    && (forall a :: a in s.utxos ==> s.utxos[a].txId != txId)
    && forall o :: o in spent ==> o.txId != txId
  }

  /** Transaction ids commit to outputs, deposits are not made to the change address, and a new
      spend's id is new. */
  ghost predicate HonestStep(w: Btc, s: State, spent: seq<Outpoint>, a: Action, plan: Option<Plan>,
                             out: Outpoint -> TxOut) {
    && (a.MapAction? ==>
         && NonNegativeOutputs(a.req.tx) && OutputsAre(w, a.req.tx, out) && w.changeAddress !in a.req.registry)
    && (plan.Some? ==> OutputsAre(w, plan.value.spend.tx, out) && Unseen(s, spent, TxID(w, plan.value.spend.tx)))
  }

  ghost predicate HonestRun(w: Btc, s: State, actions: seq<Action>, out: Outpoint -> TxOut)
    requires WellFormedRun(w, s, actions)
    decreases |actions|
  {
    actions == [] ||
    var front := actions[..|actions| - 1];
    var before := Run(w, s, front);
    var last := actions[|actions| - 1];
    HonestRun(w, s, front, out) && HonestStep(w, before, Spent(w, s, front), last, CompletedPlan(w, before, last), out)
  }

  // Deposits.

  lemma PromotionKeepsRecords(s: State, s1: State)
    requires Coherent(s) && Coherent(s1) && |s1.utxoList| == |s.utxoList|
    requires forall i :: 0 <= i < |s.utxoList| ==> SameCoin(s, s1, i)
    requires InjectiveRecords(s)
    ensures InjectiveRecords(s1)
    ensures forall a :: a in s1.utxos ==> exists b :: b in s.utxos && s.utxos[b] == s1.utxos[a]
  {
    forall a | a in s1.utxos ensures exists b :: b in s.utxos && s.utxos[b] == s1.utxos[a] {
      var i := EntryOf(s1, a);
      assert SameCoin(s, s1, i);
    }
    forall a, b | a in s1.utxos && b in s1.utxos && a != b ensures OutpointOf(s1.utxos[a]) != OutpointOf(s1.utxos[b]) {
      var i := EntryOf(s1, a);
      var j := EntryOf(s1, b);
      assert SameCoin(s, s1, i) && SameCoin(s, s1, j);
      assert s.utxoList[i].id != s.utxoList[j].id;
    }
  }

  lemma PromotionKeepsUnspent(w: Btc, s: State, s1: State, spent: seq<Outpoint>, out: Outpoint -> TxOut)
    requires Coherent(s) && Coherent(s1) && |s1.utxoList| == |s.utxoList| && s1.observed == s.observed
    requires forall i :: 0 <= i < |s.utxoList| ==> SameCoin(s, s1, i)
    requires Unspent(w, s, spent, out)
    ensures Unspent(w, s1, spent, out)
  {
    hide Coherent, SameCoin, IsChange;
    PromotionKeepsRecords(s, s1);
  }

  /** Where a record of s' comes from: an old one, or a newly observed outpoint. */
  lemma RecordOrigin(s: State, s': State, seen: set<Outpoint>, a: Byte)
    requires Coherent(s) && Coherent(s') && Deposits(s, s', seen) && a in s'.utxos
    ensures (a in s.utxos && s'.utxos[a] == s.utxos[a])
         || (a !in s.utxos && OutpointOf(s'.utxos[a]) in s'.observed - s.observed)
  {
    var i := EntryOf(s', a);
    assert forall k :: 0 <= k < |s.utxoList| ==>
      s'.utxoList[k] == s.utxoList[k] && s.utxoList[k].id in IdSet(s.utxoList);
  }

  lemma NewRecordsDistinct(s: State, s': State, seen: set<Outpoint>, a: Byte, b: Byte)
    requires Coherent(s) && Coherent(s') && Deposits(s, s', seen)
    requires a in s'.utxos && b in s'.utxos && a != b && a !in s.utxos && b !in s.utxos
    ensures OutpointOf(s'.utxos[a]) != OutpointOf(s'.utxos[b])
  {
    var i := EntryOf(s', a);
    var j := EntryOf(s', b);
    assert forall k :: 0 <= k < |s.utxoList| ==>
      s'.utxoList[k] == s.utxoList[k] && s.utxoList[k].id in IdSet(s.utxoList);
    assert i >= |s.utxoList| && j >= |s.utxoList|;
    assert OutpointAt(s', i) == OutpointOf(s'.utxos[a]) && OutpointAt(s', j) == OutpointOf(s'.utxos[b]);
  }

  lemma DepositsKeepUnspent(w: Btc, s: State, s': State, seen: set<Outpoint>, spent: seq<Outpoint>,
                            out: Outpoint -> TxOut)
    requires Coherent(s) && Coherent(s') && Deposits(s, s', seen) && Unspent(w, s, spent, out)
    requires forall o :: o in seen ==> !IsChange(w, o, out)
    ensures Unspent(w, s', spent, out)
  {
    assert s.observed <= s'.observed <= s.observed + seen;
    hide Coherent, Deposits, IsChange;
    forall a | a in s'.utxos
      ensures OutpointOf(s'.utxos[a]) !in spent && Known(w, s', OutpointOf(s'.utxos[a]), out)
    {
      RecordOrigin(s, s', seen, a);
    }
    forall a, b | a in s'.utxos && b in s'.utxos && a != b ensures OutpointOf(s'.utxos[a]) != OutpointOf(s'.utxos[b]) {
      RecordOrigin(s, s', seen, a);
      RecordOrigin(s, s', seen, b);
      if a !in s.utxos && b !in s.utxos {
        NewRecordsDistinct(s, s', seen, a, b);
      }
    }
  }

  /** Matched outputs are not change: they name a registered address first. */
  lemma MatchedNotChange(w: Btc, req: MapRequest, found: seq<Utxo>, capacity: nat, out: Outpoint -> TxOut)
    requires WellFormed(w, req) && OutputsAre(w, req.tx, out) && w.changeAddress !in req.registry
    requires found == MatchingOutputs(w, req.registry, TxID(w, req.tx), req.tx.txOut)
    ensures forall o :: o in SlotOutpoints(Slots(found, capacity)) ==> !IsChange(w, o, out)
  {
    assert FirstRegistered([w.changeAddress], req.registry).None?;
    hide MatchingOutputs, TxID;
    forall o | o in SlotOutpoints(Slots(found, capacity)) ensures !IsChange(w, o, out) {
      var j :| 0 <= j < |found| && o == OutpointOf(found[j]);
      MatchingMember(w, req.registry, TxID(w, req.tx), req.tx.txOut, found[j]);
      var v := found[j].vout;
      assert o == OutpointOf(found[j]);
      assert found[j].txId == TxID(w, req.tx);
      assert o == Outpoint(TxID(w, req.tx), v);
      assert out(o) == req.tx.txOut[v];
    }
  }

  lemma MapKeepsUnspent(w: Btc, s: State, req: MapRequest, s': State, spent: seq<Outpoint>, out: Outpoint -> TxOut)
    requires LedgerInv(s) && WellFormed(w, req) && MapTx(w, s, req, false) == Ok(s')
    requires NonNegativeOutputs(req.tx) && OutputsAre(w, req.tx, out) && w.changeAddress !in req.registry
    requires Unspent(w, s, spent, out)
    ensures Unspent(w, s', spent, out)
  {
    assert |req.tx.txOut| <= 0x1_0000_0000;
    hide MapTx, UpdateUtxoSpends, MatchingOutputs, TxID, TxOutpoints, Slots, VerifyTransaction, WellFormed;
    hide NonNegativeOutputs;
    hide Coherent, UserLedger, SumValues, SameCoin, Pays, PoolFull, Unspent, OutputsAre, SlotOutpoints, ProcessUtxos;
    hide Ready, NonNegative, Valued, StorableSlots, NoRepeats, AllPositive;
    var slots, s1, promoted := MapStages(w, s, req, s');
    var found := MatchingOutputs(w, req.registry, TxID(w, req.tx), req.tx.txOut);
    UpdateUtxoSpendsEffect(s, TxID(w, req.tx), s1, promoted);
    PromotionKeepsUnspent(w, s, s1, spent, out);
    MatchedNotChange(w, req, found, |req.registry|, out);
    OutputsCommit(w, req.tx, out);
    FoundFacts(w, req, found, ValueIn(out));
    SlotFacts(found, |req.registry|, ValueIn(out), TxOutpoints(w, req.tx));
    ProcessKeepsUnspent(w, s1, req, slots, s', spent, out);
  }

  lemma ProcessKeepsUnspent(w: Btc, s: State, req: MapRequest, slots: seq<Option<Utxo>>, s': State,
                            spent: seq<Outpoint>, out: Outpoint -> TxOut)
    requires Ready(s, slots) && Coherent(s) && NonNegative(slots) && Valued(slots, ValueIn(out))
    requires ProcessUtxos(w, s, req, slots, false) == Ok(s')
    requires forall o :: o in SlotOutpoints(slots) ==> !IsChange(w, o, out)
    requires Unspent(w, s, spent, out)
    ensures Unspent(w, s', spent, out)
  {
    hide Coherent, SumValues, Unspent, OutputsAre, SlotOutpoints, Deposits, CreditAll, Balanced, IsChange;
    var p := CreditAll(w, Progress(s, 0), req, slots, 0, false).value;
    CreditAllEffect(w, Progress(s, 0), req, slots, 0, false, p, ValueIn(out));
    DepositsKeepUnspent(w, s, p.state, SlotOutpoints(slots), spent, out);
    SameRecords(w, p.state, s', spent, out);
  }

  lemma SameRecords(w: Btc, s: State, s': State, spent: seq<Outpoint>, out: Outpoint -> TxOut)
    requires Unspent(w, s, spent, out) && s'.utxos == s.utxos && s'.observed == s.observed
    ensures Unspent(w, s', spent, out)
  {
  }

  // Withdrawals.

  /** u records an output of these that pays the address. */
  ghost predicate Records(w: Btc, txId: TxId, outs: seq<TxOut>, address: string, u: Utxo) {
    u.txId == txId && u.vout < |outs| && PaysTo(w, outs[u.vout], address)
  }

  lemma {:induction false} PayingIncreasing(w: Btc, txId: TxId, outs: seq<TxOut>, address: string, r: seq<Utxo>)
    requires |outs| <= 0x1_0000_0000 && r == OutputsPaying(w, txId, outs, address)
    ensures forall i :: 0 <= i < |r| ==> Records(w, txId, outs, address, r[i])
    ensures forall i, j :: 0 <= i < j < |r| ==> r[i].vout < r[j].vout
    decreases |outs|
  {
    if outs != [] {
      var n := |outs| - 1;
      var front := OutputsPaying(w, txId, outs[..n], address);
      PayingIncreasing(w, txId, outs[..n], address, front);
      hide PaysTo;
      forall i | 0 <= i < |r| ensures Records(w, txId, outs, address, r[i]) {
        if i < |front| {
          assert r[i] == front[i] && Records(w, txId, outs[..n], address, front[i]);
        }
      }
      forall i, j | 0 <= i < j < |r| ensures r[i].vout < r[j].vout {
        assert r[i] == front[i] && Records(w, txId, outs[..n], address, front[i]);
      }
    }
  }

  /** Facts about the change outputs of a withdrawal. */
  lemma ChangeOutpoints(w: Btc, tx: MsgTx, found: seq<Utxo>, out: Outpoint -> TxOut)
    requires |tx.txOut| <= 0x1_0000_0000 && OutputsAre(w, tx, out)
    requires found == OutputsPaying(w, TxID(w, tx), tx.txOut, w.changeAddress)
    ensures forall i :: 0 <= i < |found| ==> found[i].txId == TxID(w, tx) && IsChange(w, OutpointOf(found[i]), out)
    ensures forall i, j :: 0 <= i < j < |found| ==> OutpointOf(found[i]) != OutpointOf(found[j])
  {
    hide TxID, OutputsPaying, PaysTo;
    PayingIncreasing(w, TxID(w, tx), tx.txOut, w.changeAddress, found);
    assert forall i :: 0 <= i < |found| ==> Records(w, TxID(w, tx), tx.txOut, w.changeAddress, found[i]);
  }

  /** Where a record comes from after a withdrawal: an old one that was not an input, or change. */
  lemma ReplacedOrigin(s: State, s': State, ids: seq<Byte>, found: seq<Utxo>, added: UtxoRegistry, a: Byte)
    returns (i: nat)
    requires Coherent(s) && Coherent(s') && Replaced(s, s', ids, found, added) && a in s'.utxos
    ensures (a in s.utxos && a !in ids && s'.utxos[a] == s.utxos[a])
         || (a !in s.utxos && i < |added| && added[i].id == a && OutpointOf(s'.utxos[a]) == OutpointOf(found[i]))
  {
    hide WithoutAll;
    var k := EntryOf(s', a);
    var kept := WithoutAll(s.utxoList, ids);
    if k < |kept| {
      i := 0;
      assert kept[k] in kept && kept[k] == s'.utxoList[k];
      WithoutAllMember(s.utxoList, ids, kept[k]);
      var j :| 0 <= j < |s.utxoList| && s.utxoList[j] == kept[k];
      assert s.utxoList[j].id in IdSet(s.utxoList);
    } else {
      i := k - |kept|;
      assert s'.utxoList[k] == added[i];
    }
  }

  lemma SpentInputs(s: State, ids: seq<Byte>, spentUtxos: seq<StoredUtxo>)
    requires LoadInputs(s.utxos, ids) == Ok(spentUtxos) && InjectiveRecords(s)
    requires forall i, j :: 0 <= i < j < |ids| ==> ids[i] != ids[j]
    ensures NoRepeats(Outpoints(spentUtxos))
    ensures forall o :: o in Outpoints(spentUtxos) ==>
      exists a :: a in ids && a in s.utxos && OutpointOf(s.utxos[a]) == o
  {
    forall o | o in Outpoints(spentUtxos) ensures exists a :: a in ids && a in s.utxos && OutpointOf(s.utxos[a]) == o {
      var i :| 0 <= i < |ids| && Outpoints(spentUtxos)[i] == o;
      assert ids[i] in ids;
    }
  }

  lemma NoRepeatsConcat(a: seq<Outpoint>, b: seq<Outpoint>)
    requires NoRepeats(a) && NoRepeats(b) && forall o :: o in b ==> o !in a
    ensures NoRepeats(a + b)
  {
    forall i, j | 0 <= i < j < |a + b| ensures (a + b)[i] != (a + b)[j] {
      if i < |a| && j >= |a| {
        assert a[i] in a && b[j - |a|] in b;
      }
    }
  }

  lemma ReplaceKeepsUnspent(w: Btc, s: State, s': State, ids: seq<Byte>, inputs: seq<Outpoint>, found: seq<Utxo>,
                            added: UtxoRegistry, spent: seq<Outpoint>, txId: TxId, out: Outpoint -> TxOut)
    requires Coherent(s) && Coherent(s') && Replaced(s, s', ids, found, added) && s'.observed == s.observed
    requires Unspent(w, s, spent, out) && Unseen(s, spent, txId)
    requires NoRepeats(inputs)
    requires forall o :: o in inputs ==> exists a :: a in ids && a in s.utxos && OutpointOf(s.utxos[a]) == o
    requires forall i :: 0 <= i < |found| ==> found[i].txId == txId && IsChange(w, OutpointOf(found[i]), out)
    requires forall i, j :: 0 <= i < j < |found| ==> OutpointOf(found[i]) != OutpointOf(found[j])
    ensures Unspent(w, s', spent + inputs, out)
  {
    assert |added| == |found|;
    hide Coherent, Replaced, IsChange;
    forall o | o in inputs ensures o !in spent && Known(w, s', o, out) && o.txId != txId {
      var a :| a in ids && a in s.utxos && OutpointOf(s.utxos[a]) == o;
    }
    NoRepeatsConcat(spent, inputs);
    forall o | o in spent + inputs ensures Known(w, s', o, out) {
      assert o in spent || o in inputs;
    }
    forall a | a in s'.utxos
      ensures OutpointOf(s'.utxos[a]) !in spent + inputs && Known(w, s', OutpointOf(s'.utxos[a]), out)
    {
      var i := ReplacedOrigin(s, s', ids, found, added, a);
    }
    forall a, b | a in s'.utxos && b in s'.utxos && a != b ensures OutpointOf(s'.utxos[a]) != OutpointOf(s'.utxos[b]) {
      var i := ReplacedOrigin(s, s', ids, found, added, a);
      var j := ReplacedOrigin(s, s', ids, found, added, b);
    }
  }

  lemma UnmapKeepsUnspent(w: Btc, s: State, env: Env, p: TransferParams, plan: Plan, s': State,
                          spent: seq<Outpoint>, out: Outpoint -> TxOut)
    requires Completes(w, s, env, p, plan, s') && LedgerInv(s) && Unspent(w, s, spent, out)
    requires OutputsAre(w, plan.spend.tx, out) && Unseen(s, spent, TxID(w, plan.spend.tx))
    ensures Unspent(w, s', spent + plan.spend.tx.txIn, out)
  {
    assert InjectiveRecords(s);
    hide Unmap, PlanUnmap, Sane, Coherent, UserLedger, Replaced, Unspent, InjectiveRecords, OutputsAre, Unseen, TxID;
    hide OutputsPaying;
    hide Deduct, LoadInputs, SelectInputs, BuildSpend, CalcVscFee, SpendFee, SpendOutputs, SigHashes, Covers, Outpoints;
    var found, added := UnmapRegistry(w, s, env, p, plan, s');
    UnmapOther(w, s, env, p, plan, s');
    PlanParts(w, s, env, p, plan);
    var destScript := PlanSpend(w, s, env, p, plan);
    SelectedDistinct(s, plan.amount, s.supply.baseFeeRate, plan.inputs);
    SpentInputs(s, plan.inputs.ids, plan.spent);
    ChangeOutpoints(w, plan.spend.tx, found, out);
    ReplaceKeepsUnspent(w, s, s', plan.inputs.ids, plan.spend.tx.txIn, found, added, spent, TxID(w, plan.spend.tx),
      out);
  }

  lemma SelectedDistinct(s: State, amount: Int64, rate: Int64, inputs: Inputs)
    requires Coherent(s) && SelectInputs(s.utxoList, amount, rate) == Ok(inputs)
    ensures forall i, j :: 0 <= i < j < |inputs.ids| ==> inputs.ids[i] != inputs.ids[j]
  {
    hide SelectInputs, Covers;
    var taken := SelectionSound(s.utxoList, amount, rate);
  }

  lemma StepKeepsUnspent(w: Btc, s: State, a: Action, spent: seq<Outpoint>, out: Outpoint -> TxOut)
    requires Sane(w) && WellFormedAction(w, a) && LedgerInv(s) && Unspent(w, s, spent, out)
    requires HonestStep(w, s, spent, a, CompletedPlan(w, s, a), out)
    ensures Unspent(w, Next(w, s, a), spent + InputsOf(CompletedPlan(w, s, a)), out)
  {
    hide Sane, MapTx, WellFormed, Transfer, AddBlocks, Unmap, Coherent, UserLedger, NonNegativeOutputs, PlanUnmap;
    hide OutputsAre;
    hide Unspent, Unseen, TxID;
    assert spent + [] == spent;
    if Step(w, s, a).Ok? {
      var s' := Step(w, s, a).value;
      match a
      case MapAction(req) => MapKeepsUnspent(w, s, req, s', spent, out);
      case UnmapAction(env, p) =>
        var plan := UnmapCompletes(w, s, a);
        UnmapKeepsUnspent(w, s, env, p, plan, s', spent, out);
      case TransferAction(env, p) => SameRecords(w, s, s', spent, out);
      case _ =>
        AdministrativeKeeps(w, s, a, s');
        SameRecords(w, s, s', spent, out);
    }
  }

  lemma {:induction false} RunKeepsUnspent(w: Btc, s: State, actions: seq<Action>, out: Outpoint -> TxOut)
    requires WellFormedRun(w, s, actions) && LedgerInv(s) && Unspent(w, s, [], out)
    requires NonNegativeDeposits(actions) && HonestRun(w, s, actions, out)
    ensures Unspent(w, Run(w, s, actions), Spent(w, s, actions), out)
    decreases |actions|
  {
    hide LedgerInv, Next, Sane, WellFormedAction, NonNegativeOutputs, CompletedPlan, InputsOf, HonestStep, Unspent;
    if actions != [] {
      var front := actions[..|actions| - 1];
      RunKeepsUnspent(w, s, front, out);
      RunKeepsLedger(w, s, front);
      StepKeepsUnspent(w, Run(w, s, front), actions[|actions| - 1], Spent(w, s, front), out);
    }
  }

  /** From an empty store no outpoint is ever an input of two of the contract's spends, nor twice of
      one; and what the registry still holds was not spent. */
  lemma NoDoubleSpend(w: Btc, actions: seq<Action>, out: Outpoint -> TxOut)
    requires WellFormedRun(w, EmptyState(), actions) && NonNegativeDeposits(actions)
      && HonestRun(w, EmptyState(), actions, out)
    ensures NoRepeats(Spent(w, EmptyState(), actions))
    ensures var s := Run(w, EmptyState(), actions);
      forall id :: id in s.utxos ==> OutpointOf(s.utxos[id]) !in Spent(w, EmptyState(), actions)
  {
    assert Unspent(w, EmptyState(), [], out);
    hide LedgerInv, Run, Spent, WellFormedRun, NonNegativeDeposits, HonestRun, EmptyState;
    InitialLedger();
    RunKeepsUnspent(w, EmptyState(), actions, out);
  }

  // ---------------------------------------------------------------- provenance of deposits

  /** A transaction with its claimed place in a block. */
  datatype Inclusion = Inclusion(tx: MsgTx, index: Uint32, proof: seq<Hash>, height: Uint32)

  /** The outpoint is an output of a transaction that hashes up to the root of a stored header. */
  ghost predicate Proves(w: Btc, headers: Headers, o: Outpoint, c: Inclusion) {
    && o.txId == TxID(w, c.tx) && o.vout < |c.tx.txOut| && c.height in headers
    && Proof.Climb(w.doubleHash, TxHash(w, c.tx), c.index, c.proof) == HeaderRoot(headers[c.height])
  }

  ghost predicate Proven(w: Btc, headers: Headers, o: Outpoint) {
    exists c: Inclusion :: Proves(w, headers, o, c)
  }

  ghost predicate AllProven(w: Btc, s: State) {
    forall o :: o in s.observed ==> Proven(w, s.headers, o)
  }

  /** The code reads a height without a header as an all-zero root. A request naming one is accepted
      exactly when its proof ends in the all-zero hash. */
  lemma UnknownHeightExact(w: Btc, headers: Headers, req: MapRequest)
    requires req.blockHeight !in headers
    ensures VerifyTransaction(w, headers, req) == None <==>
      var proof := Proof.ProofOfHex(req.merkleProofHex);
      proof.Ok? && Proof.Climb(w.doubleHash, TxHash(w, req.tx), req.txIndex, proof.value) == Proof.ZeroHash()
  {
    hide TxHash, Proof.Climb, Proof.ProofOfHex;
    assert HeaderRoot([]) == Proof.ZeroHash();
  }

  /** The strings hashed to check a request. */
  ghost function RequestInputs(w: Btc, req: MapRequest): set<Bytes> {
    var proof := Proof.ProofOfHex(req.merkleProofHex);
    {w.serialize(req.tx)}
    + if proof.Err? then {} else Proof.ClimbInputs(w.doubleHash, TxHash(w, req.tx), req.txIndex, proof.value)
  }

  lemma {:induction false} ClimbNotZero(H: Bytes -> Hash, current: Hash, index: nat, proof: seq<Hash>)
    requires current != Proof.ZeroHash()
    requires forall bs :: bs in Proof.ClimbInputs(H, current, index, proof) ==> H(bs) != Proof.ZeroHash()
    ensures Proof.Climb(H, current, index, proof) != Proof.ZeroHash()
    decreases |proof|
  {
    hide Proof.ZeroHash, Join;
    if proof != [] {
      var joined := if index % 2 == 0 then Join(current, proof[0]) else Join(proof[0], current);
      assert joined in Proof.ClimbInputs(H, current, index, proof);
      ClimbNotZero(H, H(joined), index / 2, proof[1..]);
    }
  }

  /** If none of the strings hashed for a request has the all-zero hash, it is accepted only with the
      height of a stored header. */
  lemma AcceptedHeightKnown(w: Btc, headers: Headers, req: MapRequest)
    requires VerifyTransaction(w, headers, req) == None
    requires forall bs :: bs in RequestInputs(w, req) ==> w.doubleHash(bs) != Proof.ZeroHash()
    ensures req.blockHeight in headers
  {
    hide Proof.ProofOfHex, Proof.ZeroHash, Proof.Climb, Proof.ClimbInputs, HeaderRoot;
    var proof := Proof.ProofOfHex(req.merkleProofHex).value;
    assert w.serialize(req.tx) in RequestInputs(w, req);
    ClimbNotZero(w.doubleHash, TxHash(w, req.tx), req.txIndex, proof);
    if req.blockHeight !in headers {
      UnknownHeightExact(w, headers, req);
      assert false;
    }
  }

  /** Every accepted deposit request of the run names a height whose header is stored. */
  ghost predicate HeightsKnown(w: Btc, s: State, actions: seq<Action>)
    requires WellFormedRun(w, s, actions)
    decreases |actions|
  {
    actions == [] ||
    var front, last := actions[..|actions| - 1], actions[|actions| - 1];
    HeightsKnown(w, s, front) && HeightKnown(w, Run(w, s, front), last)
  }

  ghost predicate HeightKnown(w: Btc, s: State, a: Action) {
    a.MapAction? && VerifyTransaction(w, s.headers, a.req) == None ==> a.req.blockHeight in s.headers
  }

  lemma {:induction false} NoZeroHashRun(w: Btc, s: State, actions: seq<Action>)
    requires WellFormedRun(w, s, actions)
    requires forall i, bs :: 0 <= i < |actions| && actions[i].MapAction? && bs in RequestInputs(w, actions[i].req) ==>
      w.doubleHash(bs) != Proof.ZeroHash()
    ensures HeightsKnown(w, s, actions)
    decreases |actions|
  {
    hide Sane, WellFormedAction, VerifyTransaction, Run, Proof.ZeroHash, RequestInputs;
    if actions != [] {
      var front, last := actions[..|actions| - 1], actions[|actions| - 1];
      NoZeroHashRun(w, s, front);
      var before := Run(w, s, front);
      if last.MapAction? && VerifyTransaction(w, before.headers, last.req) == None {
        AcceptedHeightKnown(w, before.headers, last.req);
      }
    }
  }

  lemma MapProves(w: Btc, s: State, req: MapRequest, o: Outpoint)
    requires |req.tx.txOut| <= 0x1_0000_0000 && VerifyTransaction(w, s.headers, req) == None
    requires o in TxOutpoints(w, req.tx) && req.blockHeight in s.headers
    ensures Proven(w, s.headers, o)
  {
    hide TxID, TxHash, Proof.Climb, HeaderRoot;
    var c := Inclusion(req.tx, req.txIndex, Proof.ProofOfHex(req.merkleProofHex).value, req.blockHeight);
    assert Proves(w, s.headers, o, c);
  }

  lemma KeptHeadersProve(w: Btc, s: State, s': State)
    requires AllProven(w, s) && KeepsHeaders(s, s')
    ensures forall o :: o in s.observed ==> Proven(w, s'.headers, o)
  {
    hide TxID, TxHash, Proof.Climb, HeaderRoot;
    forall o | o in s.observed ensures Proven(w, s'.headers, o) {
      var c: Inclusion :| Proves(w, s.headers, o, c);
      assert Proves(w, s'.headers, o, c);
    }
  }

  lemma MapVerified(w: Btc, s: State, req: MapRequest, s': State)
    requires CountersInRange(s) && WellFormed(w, req) && MapTx(w, s, req, false) == Ok(s')
    ensures VerifyTransaction(w, s.headers, req) == None
  {
    hide VerifyTransaction, UpdateUtxoSpends, ProcessUtxos, WellFormed;
  }

  lemma StepKeepsProven(w: Btc, s: State, a: Action)
    requires Sane(w) && CountersInRange(s) && WellFormedAction(w, a) && Anchored(w, s) && AllProven(w, s)
    requires !BreaksChain(w, s, a) && HeightKnown(w, s, a)
    ensures AllProven(w, Next(w, s, a))
  {
    StepKeepsAnchored(w, s, a);
    hide Sane, MapTx, WellFormed, Transfer, AddBlocks, Unmap, PlanUnmap;
    hide Proven, VerifyTransaction, TxOutpoints, Anchored, BreaksChain, KeepsHeaders;
    KeptHeadersProve(w, s, Next(w, s, a));
    if Step(w, s, a).Ok? {
      var s' := Step(w, s, a).value;
      match a
      case MapAction(req) =>
        MapFrame(w, s, req, s');
        MapVerified(w, s, req, s');
        forall o | o in s'.observed ensures Proven(w, s'.headers, o) {
          if o !in s.observed {
            MapProves(w, s, req, o);
          }
        }
      case UnmapAction(env, p) =>
        var plan := UnmapCompletes(w, s, a);
        UnmapOther(w, s, env, p, plan, s');
      case TransferAction(_, _) =>
      case _ => AdministrativeKeeps(w, s, a, s');
    }
  }

  /** From an empty store, over every run with one seed whose accepted headers link up and whose
      accepted deposits name stored heights: each outpoint ever credited is an output of a transaction
      with a Merkle branch to the root of a header that is still stored. */
  lemma {:induction false} RunKeepsProven(w: Btc, actions: seq<Action>)
    requires WellFormedRun(w, EmptyState(), actions)
    requires ChainUnbroken(w, EmptyState(), actions) && HeightsKnown(w, EmptyState(), actions)
    ensures AllProven(w, Run(w, EmptyState(), actions))
    decreases |actions|
  {
    hide Next, Sane, WellFormedAction, Anchored, BreaksChain, Proven, HeightKnown;
    if actions != [] {
      var front := actions[..|actions| - 1];
      RunKeepsProven(w, front);
      ChainFromScratch(w, front);
      StepKeepsProven(w, Run(w, EmptyState(), front), actions[|actions| - 1]);
    }
  }
}
