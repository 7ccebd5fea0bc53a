// What the deposit step does to registry, observed set and ledger.

module Crediting {
  import opened Wrappers
  import opened Int64
  import opened Types
  import opened Keys
  import opened World
  import opened Accounts
  import opened Registry
  import opened Spend
  import opened State
  import opened Pools
  import opened Promotion
  import opened Mapping
  import opened Unmapping

  // ---------------------------------------------------------------- values of outpoints

  ghost function SumValues(os: set<Outpoint>, value: Outpoint -> int): int {
    if os == {} then 0 else
    var o :| o in os;
    value(o) + SumValues(os - {o}, value)
  }

  lemma {:induction false} SumValuesWithout(os: set<Outpoint>, value: Outpoint -> int, o: Outpoint)
    requires o in os
    ensures SumValues(os, value) == value(o) + SumValues(os - {o}, value)
    decreases os
  {
    var c :| c in os && SumValues(os, value) == value(c) + SumValues(os - {c}, value);
    if c != o {
      SumValuesWithout(os - {c}, value, o);
      SumValuesWithout(os - {o}, value, c);
      assert os - {c} - {o} == os - {o} - {c};
    }
  }

  lemma SumValuesAdd(os: set<Outpoint>, value: Outpoint -> int, o: Outpoint)
    requires o !in os
    ensures SumValues(os + {o}, value) == SumValues(os, value) + value(o)
  {
    SumValuesWithout(os + {o}, value, o);
    assert os + {o} - {o} == os;
  }

  /** The amounts in the slots are the values of their outpoints. */
  ghost predicate Valued(slots: seq<Option<Utxo>>, value: Outpoint -> int) {
    forall i :: 0 <= i < |slots| && slots[i].Some? ==> slots[i].value.amount == value(OutpointOf(slots[i].value))
  }

  // ---------------------------------------------------------------- one pass

  /** From s to s' deposits were added: the registry grew at its end by confirmed entries for newly
      observed outpoints, one each; old records stayed; what is newly observed is among `seen`; no
      other table but the balances changed. */
  ghost predicate Deposits(s: State, s': State, seen: set<Outpoint>) {
    && s.utxoList <= s'.utxoList
    && (forall id :: id in s.utxos ==> id in s'.utxos && s'.utxos[id] == s.utxos[id])
    && s.observed <= s'.observed <= s.observed + seen
    && (forall i :: |s.utxoList| <= i < |s'.utxoList| ==>
          IsConfirmed(s'.utxoList[i]) && s'.utxoList[i].id in s'.utxos
          && OutpointOf(s'.utxos[s'.utxoList[i].id]) in s'.observed - s.observed)
    && (forall i, j :: |s.utxoList| <= i < j < |s'.utxoList| ==> OutpointAt(s', i) != OutpointAt(s', j))
    && s' == s.(utxoList := s'.utxoList, utxos := s'.utxos, confirmedNextId := s'.confirmedNextId,
                observed := s'.observed, balances := s'.balances)
  }

  /** The outpoint registered at position i. */
  ghost function OutpointAt(s: State, i: nat): Outpoint
    requires i < |s.utxoList| && s.utxoList[i].id in s.utxos
  {
    OutpointOf(s.utxos[s.utxoList[i].id])
  }

  lemma DepositsCompose(s: State, s1: State, s2: State, a: set<Outpoint>, b: set<Outpoint>)
    requires Deposits(s, s1, a) && Deposits(s1, s2, b)
    ensures Deposits(s, s2, a + b)
  {
    forall i | |s.utxoList| <= i < |s2.utxoList|
      ensures IsConfirmed(s2.utxoList[i]) && s2.utxoList[i].id in s2.utxos
        && OutpointOf(s2.utxos[s2.utxoList[i].id]) in s2.observed - s.observed
    {
      if i < |s1.utxoList| {
        assert s2.utxoList[i] == s1.utxoList[i];
      }
    }
    forall i, j | |s.utxoList| <= i < j < |s2.utxoList| ensures OutpointAt(s2, i) != OutpointAt(s2, j) {
      if i < |s1.utxoList| {
        assert s2.utxoList[i] == s1.utxoList[i] && s1.utxoList[i].id in s1.utxos;
        assert OutpointAt(s2, i) == OutpointAt(s1, i) && OutpointAt(s1, i) in s1.observed;
        if j < |s1.utxoList| {
          assert s2.utxoList[j] == s1.utxoList[j];
          assert OutpointAt(s2, j) == OutpointAt(s1, j);
        }
      }
    }
  }

  /** The two differences a crediting pass keeps: reserve minus mapped total, and value of the
      observed outpoints minus mapped total. */
  ghost predicate Balanced(p: Progress, p': Progress, value: Outpoint -> int) {
    && Reserve(p'.state) - p'.total == Reserve(p.state) - p.total
    && SumValues(p'.state.observed, value) - p'.total == SumValues(p.state.observed, value) - p.total
  }

  lemma RegisterEffect(s: State, a: Allocation, u: Utxo, value: Outpoint -> int)
    requires CountersInRange(s) && Coherent(s) && u.Storable() && OutpointOf(u) !in s.observed
    requires AllocateConfirmed(s.confirmedNextId, s.utxos.Keys) == Ok(a) && u.amount == value(OutpointOf(u))
    ensures var s1 := Register(s, a, u);
      && CountersInRange(s1) && Coherent(s1) && Deposits(s, s1, {OutpointOf(u)})
      && Reserve(s1) == Reserve(s) + u.amount
      && SumValues(s1.observed, value) == SumValues(s.observed, value) + u.amount
  {
    AllocateMeaning(UTXO_CONFIRMED_POOL_START, UTXO_POOL_END, s.confirmedNextId, s.utxos.Keys);
    hide Allocate, Coherent, SumValues, SumAmounts, Deposits;
    AppendCoherent(s, a.id, u.Stored());
    RegisterCoherent(s, a, u);
    RegisterDeposits(s, a, u);
    SumOneMore(s.utxoList, UtxoRegistryEntry(a.id, u.amount));
    SumValuesAdd(s.observed, value, OutpointOf(u));
  }

  lemma SumOneMore(es: UtxoRegistry, e: UtxoRegistryEntry)
    ensures SumAmounts(es + [e]) == SumAmounts(es) + e.amount
  {
    assert (es + [e])[..|es|] == es;
  }

  lemma RegisterDeposits(s: State, a: Allocation, u: Utxo)
    requires u.Storable() && OutpointOf(u) !in s.observed && a.id !in s.utxos && a.id >= UTXO_CONFIRMED_POOL_START
    ensures Deposits(s, Register(s, a, u), {OutpointOf(u)})
  {
    var s1 := Register(s, a, u);
    assert OutpointOf(s1.utxos[a.id]) == OutpointOf(u);
  }

  lemma RegisterCoherent(s: State, a: Allocation, u: Utxo)
    requires u.Storable()
    requires Coherent(s.(utxoList := s.utxoList + [UtxoRegistryEntry(a.id, u.amount)],
                         utxos := s.utxos[a.id := u.Stored()]))
    ensures Coherent(Register(s, a, u))
  {
  }

  lemma SetBalances(s: State, b: Balances)
    ensures Coherent(s) ==> Coherent(s.(balances := b))
    ensures Reserve(s.(balances := b)) == Reserve(s)
  {
  }

  /** The output is marked observed if its first address is a registered one. */
  ghost predicate Credited(w: Btc, req: MapRequest, u: Utxo, s: State) {
    var addrs := w.addrsOf(u.pkScript);
    addrs.Some? && addrs.value != [] && (addrs.value[0] in req.registry ==> OutpointOf(u) in s.observed)
  }

  lemma CreditOneEffect(w: Btc, p: Progress, req: MapRequest, i: nat, slot: Option<Utxo>, checked: bool, p': Progress,
                        value: Outpoint -> int)
    requires Ready(p.state, [slot]) && Coherent(p.state) && CreditOne(w, p, req, i, slot, checked) == Ok(p')
    requires Valued([slot], value)
    ensures slot.Some?
    ensures CountersInRange(p'.state) && Coherent(p'.state)
    ensures Deposits(p.state, p'.state, {OutpointOf(slot.value)}) && Balanced(p, p', value)
    ensures Credited(w, req, slot.value, p'.state)
  {
    hide Coherent, Reserve, SumValues, CreditBalances, Allocate;
    var u := slot.value;
    var s := p.state;
    assert [slot][0] == slot;
    var addrs := w.addrsOf(u.pkScript);
    if addrs.value[0] in req.registry && OutpointOf(u) !in s.observed {
      var a := AllocateConfirmed(s.confirmedNextId, s.utxos.Keys).value;
      RegisterEffect(s, a, u, value);
      SetBalances(Register(s, a, u), p'.state.balances);
    }
  }

  ghost function SlotOutpoints(slots: seq<Option<Utxo>>): set<Outpoint> {
    set i | 0 <= i < |slots| && slots[i].Some? :: OutpointOf(slots[i].value)
  }

  /** A whole crediting pass. It fills no slot with a nil record and counts each newly observed
      outpoint's value once, in the reserve, in the observed set and in the total. */
  lemma {:induction false} CreditAllEffect(w: Btc, p: Progress, req: MapRequest, slots: seq<Option<Utxo>>, i: nat,
                                           checked: bool,
                                           p': Progress, value: Outpoint -> int)
    requires i <= |slots| && Ready(p.state, slots) && Coherent(p.state)
    requires CreditAll(w, p, req, slots, i, checked) == Ok(p') && Valued(slots, value)
    ensures CountersInRange(p'.state) && Coherent(p'.state)
    ensures Deposits(p.state, p'.state, SlotOutpoints(slots)) && Balanced(p, p', value)
    ensures forall j :: i <= j < |slots| ==> slots[j].Some? && Credited(w, req, slots[j].value, p'.state)
    decreases |slots| - i
  {
    hide Coherent, Reserve, SumValues, CreditOne, SlotOutpoints;
    if i < |slots| {
      assert [slots[i]][0] == slots[i];
      var p1 := CreditOne(w, p, req, i, slots[i], checked).value;
      CreditOneEffect(w, p, req, i, slots[i], checked, p1, value);
      CreditAllEffect(w, p1, req, slots, i + 1, checked, p', value);
      DepositsCompose(p.state, p1.state, p'.state, {OutpointOf(slots[i].value)}, SlotOutpoints(slots));
      SlotListed(slots, i);
    }
  }

  lemma SlotListed(slots: seq<Option<Utxo>>, i: nat)
    requires i < |slots| && slots[i].Some?
    ensures {OutpointOf(slots[i].value)} + SlotOutpoints(slots) == SlotOutpoints(slots)
  {
    assert OutpointOf(slots[i].value) in SlotOutpoints(slots);
  }

  // ---------------------------------------------------------------- user ledger while crediting

  lemma {:induction false} RunTransfersEffect(w: Btc, b: Balances, transfers: seq<(Env, TransferParams)>)
    requires AllPositive(b)
    ensures AllPositive(RunTransfers(w, b, transfers))
    ensures SumBalances(RunTransfers(w, b, transfers)) == SumBalances(b)
    decreases |transfers|
  {
    hide Transfer, SumBalances;
    if transfers != [] {
      var t := Transfer(w, transfers[0].0, b, transfers[0].1);
      if t.Ok? {
        TransferEffect(w, transfers[0].0, b, transfers[0].1);
      }
      RunTransfersEffect(w, if t.Ok? then t.value else b, transfers[1..]);
    }
  }

  lemma CreditAccount(b: Balances, account: string, amount: Int64)
    requires AllPositive(b) && amount >= 0 && InInt64(GetBal(b, account) + amount)
    ensures AllPositive(SetBal(b, account, GetBal(b, account) + amount))
    ensures SumBalances(SetBal(b, account, GetBal(b, account) + amount)) == SumBalances(b) + amount
  {
    SumAfterSet(b, account, GetBal(b, account) + amount);
  }

  /** Crediting raises the sum by the amount - or the credit overflowed, and then so does the sum. */
  lemma CreditBalancesEffect(w: Btc, s: State, req: MapRequest, i: nat, m: AddressMetadata, amount: Int64)
    requires AllPositive(s.balances) && amount >= 0
    ensures var checked := CreditBalances(w, s, req, i, m, amount, true);
      var unchecked := CreditBalances(w, s, req, i, m, amount, false);
      && (checked.Ok? ==> unchecked == checked && AllPositive(checked.value)
                          && SumBalances(checked.value) == SumBalances(s.balances) + amount)
      && (checked.Err? && unchecked.Ok? ==> AllPositive(unchecked.value) && SumBalances(s.balances) + amount > MAX64)
  {
    hide SumBalances, RunTransfers;
    if m.kind.MapDeposit? {
      BalanceBelowSum(s.balances, m.recipient);
      if InInt64(GetBal(s.balances, m.recipient) + amount) {
        CreditAccount(s.balances, m.recipient, amount);
      }
    } else if InInt64(GetBal(s.balances, req.env.sender) + amount) {
      CreditAccount(s.balances, req.env.sender, amount);
      var b := SetBal(s.balances, req.env.sender, GetBal(s.balances, req.env.sender) + amount);
      RunTransfersEffect(w, b, (if i < |req.calls| then req.calls[i] else RouterCall([], false)).transfers);
    }
  }

  /** All credits so far are in the balances. */
  ghost predicate Covered(p: Progress) {
    AllPositive(p.state.balances) && SumBalances(p.state.balances) == p.state.supply.userSupply + p.total
  }

  /** Some credit was dropped: what was mapped no longer fits on top of the user supply. */
  ghost predicate Lost(p: Progress) {
    AllPositive(p.state.balances) && p.state.supply.userSupply + p.total > MAX64
  }

  ghost predicate NonNegative(slots: seq<Option<Utxo>>) {
    forall i :: 0 <= i < |slots| && slots[i].Some? ==> slots[i].value.amount >= 0
  }

  /** One output, from a state in which every credit so far was applied: the checked and the
      actual run agree, or the actual run goes on with a lost credit. */
  lemma CreditOneCovered(w: Btc, p: Progress, req: MapRequest, i: nat, slot: Option<Utxo>)
    requires Ready(p.state, [slot]) && Covered(p) && NonNegative([slot])
    ensures var c := CreditOne(w, p, req, i, slot, true);
      var u := CreditOne(w, p, req, i, slot, false);
      && (c.Ok? ==> u == c && Covered(c.value) && c.value.state.supply == p.state.supply)
      && (c.Err? && u.Ok? ==> Lost(u.value) && u.value.state.supply == p.state.supply)
  {
    hide CreditBalances, Allocate, SumBalances;
    assert [slot][0] == slot;
    if slot.Some? {
      var u := slot.value;
      var a := AllocateConfirmed(p.state.confirmedNextId, p.state.utxos.Keys);
      var addrs := w.addrsOf(u.pkScript);
      if addrs.Some? && addrs.value != [] && addrs.value[0] in req.registry && a.Ok? {
        CreditBalancesEffect(w, Register(p.state, a.value, u), req, i, req.registry[addrs.value[0]], u.amount);
      }
    }
  }

  lemma CreditOneLost(w: Btc, p: Progress, req: MapRequest, i: nat, slot: Option<Utxo>, p': Progress)
    requires Ready(p.state, [slot]) && Lost(p) && NonNegative([slot])
    requires CreditOne(w, p, req, i, slot, false) == Ok(p')
    ensures Lost(p') && p'.state.supply == p.state.supply
  {
    hide CreditBalances, Allocate, SumBalances;
    assert [slot][0] == slot;
    var u := slot.value;
    var a := AllocateConfirmed(p.state.confirmedNextId, p.state.utxos.Keys);
    var addrs := w.addrsOf(u.pkScript);
    if addrs.value[0] in req.registry && a.Ok? {
      CreditBalancesEffect(w, Register(p.state, a.value, u), req, i, req.registry[addrs.value[0]], u.amount);
    }
  }

  lemma {:induction false} CreditAllLost(w: Btc, p: Progress, req: MapRequest, slots: seq<Option<Utxo>>, i: nat)
    requires i <= |slots| && Ready(p.state, slots) && Lost(p) && NonNegative(slots)
    ensures var r := CreditAll(w, p, req, slots, i, false);
      r.Ok? ==> Lost(r.value) && r.value.state.supply == p.state.supply
    decreases |slots| - i
  {
    hide CreditOne;
    if i < |slots| {
      assert [slots[i]][0] == slots[i];
      var r := CreditOne(w, p, req, i, slots[i], false);
      if r.Ok? {
        CreditOneLost(w, p, req, i, slots[i], r.value);
        CreditAllLost(w, r.value, req, slots, i + 1);
      }
    }
  }

  lemma {:induction false} CreditAllCovered(w: Btc, p: Progress, req: MapRequest, slots: seq<Option<Utxo>>, i: nat)
    requires i <= |slots| && Ready(p.state, slots) && Covered(p) && NonNegative(slots)
    ensures var c := CreditAll(w, p, req, slots, i, true);
      var u := CreditAll(w, p, req, slots, i, false);
      && (c.Ok? ==> u == c && Covered(c.value) && c.value.state.supply == p.state.supply)
      && (c.Err? && u.Ok? ==> Lost(u.value) && u.value.state.supply == p.state.supply)
    decreases |slots| - i
  {
    hide CreditOne;
    if i < |slots| {
      assert [slots[i]][0] == slots[i];
      CreditOneCovered(w, p, req, i, slots[i]);
      var c := CreditOne(w, p, req, i, slots[i], true);
      var u := CreditOne(w, p, req, i, slots[i], false);
      if c.Ok? {
        CreditAllCovered(w, c.value, req, slots, i + 1);
      } else if u.Ok? {
        CreditAllLost(w, u.value, req, slots, i + 1);
      }
    }
  }

  /** Dropping the error of a deposit credit is harmless: from a state in which the balances add
      up to the supplies, a run with the error checked and the actual run succeed on the same
      calls, with the same result. No call completes with a lost credit. */
  lemma IgnoredErrorHarmless(w: Btc, s: State, req: MapRequest, slots: seq<Option<Utxo>>)
    requires Ready(s, slots) && UserLedger(s) && NonNegative(slots)
    ensures var actual := ProcessUtxos(w, s, req, slots, false);
      var checked := ProcessUtxos(w, s, req, slots, true);
      && (actual.Ok? <==> checked.Ok?)
      && (actual.Ok? ==> actual == checked && UserLedger(actual.value))
  {
    CreditAllCovered(w, Progress(s, 0), req, slots, 0);
    hide CreditAll, SumBalances;
  }

  // ---------------------------------------------------------------- the whole deposit step

  /** Output values are the values of the outpoints they create. */
  ghost predicate CommitsTo(w: Btc, tx: MsgTx, value: Outpoint -> int)
    requires |tx.txOut| <= 0x1_0000_0000
  {
    forall i :: 0 <= i < |tx.txOut| ==> tx.txOut[i].value == value(Outpoint(TxID(w, tx), i))
  }

  /** Bitcoin's own rule for output values. */
  ghost predicate NonNegativeOutputs(tx: MsgTx) {
    forall i :: 0 <= i < |tx.txOut| ==> tx.txOut[i].value >= 0
  }

  ghost function TxOutpoints(w: Btc, tx: MsgTx): set<Outpoint>
    requires |tx.txOut| <= 0x1_0000_0000
  {
    set i | 0 <= i < |tx.txOut| :: Outpoint(TxID(w, tx), i)
  }

  lemma FoundFacts(w: Btc, req: MapRequest, found: seq<Utxo>, value: Outpoint -> int)
    requires WellFormed(w, req) && NonNegativeOutputs(req.tx) && CommitsTo(w, req.tx, value)
    requires found == MatchingOutputs(w, req.registry, TxID(w, req.tx), req.tx.txOut)
    ensures forall j :: 0 <= j < |found| ==>
      found[j].amount >= 0 && found[j].amount == value(OutpointOf(found[j]))
        && OutpointOf(found[j]) in TxOutpoints(w, req.tx)
  {
    forall j | 0 <= j < |found|
      ensures found[j].amount >= 0 && found[j].amount == value(OutpointOf(found[j]))
        && OutpointOf(found[j]) in TxOutpoints(w, req.tx)
    {
      MatchingMember(w, req.registry, TxID(w, req.tx), req.tx.txOut, found[j]);
      assert OutpointOf(found[j]) == Outpoint(TxID(w, req.tx), found[j].vout);
    }
    hide MatchingOutputs, TxID;
  }

  lemma SlotFacts(found: seq<Utxo>, capacity: nat, value: Outpoint -> int, outputs: set<Outpoint>)
    requires forall j :: 0 <= j < |found| ==>
      found[j].amount >= 0 && found[j].amount == value(OutpointOf(found[j])) && OutpointOf(found[j]) in outputs
    ensures NonNegative(Slots(found, capacity)) && Valued(Slots(found, capacity), value)
    ensures SlotOutpoints(Slots(found, capacity)) <= outputs
  {
  }

  /** The stages of a deposit call that completes. */
  lemma MapStages(w: Btc, s: State, req: MapRequest, s': State)
    returns (slots: seq<Option<Utxo>>, s1: State, promoted: bool)
    requires CountersInRange(s) && WellFormed(w, req) && MapTx(w, s, req, false) == Ok(s')
    ensures VerifyTransaction(w, s.headers, req) == None
    ensures slots == Slots(MatchingOutputs(w, req.registry, TxID(w, req.tx), req.tx.txOut), |req.registry|)
    ensures |MatchingOutputs(w, req.registry, TxID(w, req.tx), req.tx.txOut)| <= |req.registry|
    ensures UpdateUtxoSpends(s, TxID(w, req.tx)) == (s1, promoted) && Ready(s1, slots)
    ensures ProcessUtxos(w, s1, req, slots, false) == Ok(s')
  {
    hide UpdateUtxoSpends, MatchingOutputs, TxID, Slots, ProcessUtxos, VerifyTransaction;
    SlotsStorable(w, req);
    slots := Slots(MatchingOutputs(w, req.registry, TxID(w, req.tx), req.tx.txOut), |req.registry|);
    s1, promoted := UpdateUtxoSpends(s, TxID(w, req.tx)).0, UpdateUtxoSpends(s, TxID(w, req.tx)).1;
  }

  // ---------------------------------------------------------------- what is left alone

  lemma {:induction false} CreditAllFrame(w: Btc, p: Progress, req: MapRequest, slots: seq<Option<Utxo>>, i: nat,
                                          p': Progress)
    requires i <= |slots| && Ready(p.state, slots) && CreditAll(w, p, req, slots, i, false) == Ok(p')
    ensures p.state.observed <= p'.state.observed <= p.state.observed + SlotOutpoints(slots)
    ensures p'.state == p.state.(utxoList := p'.state.utxoList, utxos := p'.state.utxos, observed := p'.state.observed,
                                 confirmedNextId := p'.state.confirmedNextId, balances := p'.state.balances)
    decreases |slots| - i
  {
    hide CreditBalances, Allocate;
    if i < |slots| {
      assert [slots[i]][0] == slots[i];
      var p1 := CreditOne(w, p, req, i, slots[i], false).value;
      SlotListed(slots, i);
      CreditAllFrame(w, p1, req, slots, i + 1, p');
    }
  }

  lemma FoundInTx(w: Btc, req: MapRequest)
    requires |req.tx.txOut| <= 0x1_0000_0000
    ensures var found := MatchingOutputs(w, req.registry, TxID(w, req.tx), req.tx.txOut);
      SlotOutpoints(Slots(found, |req.registry|)) <= TxOutpoints(w, req.tx)
  {
    var found := MatchingOutputs(w, req.registry, TxID(w, req.tx), req.tx.txOut);
    hide MatchingOutputs, TxID;
    forall j | 0 <= j < |found| ensures OutpointOf(found[j]) in TxOutpoints(w, req.tx) {
      MatchingMember(w, req.registry, TxID(w, req.tx), req.tx.txOut, found[j]);
      assert OutpointOf(found[j]) == Outpoint(TxID(w, req.tx), found[j].vout);
    }
  }

  /** A deposit call leaves headers, stored height, router id and fee rate alone and marks outputs of
      its transaction only, whatever the state and the output values. */
  lemma MapFrame(w: Btc, s: State, req: MapRequest, s': State)
    requires CountersInRange(s) && WellFormed(w, req) && MapTx(w, s, req, false) == Ok(s')
    ensures |req.tx.txOut| <= 0x1_0000_0000
    ensures s.observed <= s'.observed <= s.observed + TxOutpoints(w, req.tx)
    ensures s'.headers == s.headers && s'.lastHeight == s.lastHeight && s'.router == s.router
    ensures s'.supply.baseFeeRate == s.supply.baseFeeRate && s'.unconfirmedNextId == s.unconfirmedNextId
    ensures s'.txSpends == s.txSpends || s'.txSpends == s.txSpends - {TxID(w, req.tx)}
  {
    hide UpdateUtxoSpends, MatchingOutputs, TxID, TxOutpoints, Slots, SlotOutpoints, VerifyTransaction;
    FoundInTx(w, req);
    hide WellFormed;
    var slots, s1, promoted := MapStages(w, s, req, s');
    hide MapTx, StorableSlots;
    UpdateFrame(s, TxID(w, req.tx));
    var p := CreditAll(w, Progress(s1, 0), req, slots, 0, false).value;
    CreditAllFrame(w, Progress(s1, 0), req, slots, 0, p);
    hide CreditAll;
  }

  /** What one completed deposit call adds up to, promotion included. */
  ghost predicate Mapped(s: State, s': State, outputs: set<Outpoint>, value: Outpoint -> int) {
    && Coherent(s') && CountersInRange(s') && UserLedger(s')
    && Reserve(s') - Accounted(s') == Reserve(s) - Accounted(s)
    && SumValues(s'.observed, value) - SumValues(s.observed, value) == s'.supply.userSupply - s.supply.userSupply
    && s.observed <= s'.observed <= s.observed + outputs
    && s'.supply.feeSupply == s.supply.feeSupply && s'.supply.baseFeeRate == s.supply.baseFeeRate
    && s'.headers == s.headers && s'.lastHeight == s.lastHeight && s'.router == s.router
    && |s.utxoList| <= |s'.utxoList|
  }

  /** The deposit step: reserve and accounted supply move together; the user supply grows by the
      value of the newly observed outpoints, which are outputs of this transaction; every ledger
      invariant is kept; and the call completed only because the transaction proved its place
      under a stored header and had as many matching outputs as there are registered addresses. */
  lemma MapEffect(w: Btc, s: State, req: MapRequest, s': State, value: Outpoint -> int)
    requires CountersInRange(s) && Coherent(s) && UserLedger(s)
    requires WellFormed(w, req) && NonNegativeOutputs(req.tx) && CommitsTo(w, req.tx, value)
    requires MapTx(w, s, req, false) == Ok(s')
    ensures Mapped(s, s', TxOutpoints(w, req.tx), value)
    ensures VerifyTransaction(w, s.headers, req) == None
    ensures var found := MatchingOutputs(w, req.registry, TxID(w, req.tx), req.tx.txOut);
      |found| == |req.registry| && forall j :: 0 <= j < |found| ==> Credited(w, req, found[j], s')
    ensures SpendsListed(s) ==> SpendsListed(s')
  {
    assert |req.tx.txOut| <= 0x1_0000_0000;
    hide MapTx, UpdateUtxoSpends, MatchingOutputs, TxID, TxOutpoints, Slots, VerifyTransaction, WellFormed;
    hide NonNegativeOutputs;
    hide CommitsTo, Coherent, SumValues, SumBalances, SumAmounts, ProcessUtxos, SameCoin, Pays, PoolFull, Mapped;
    hide CountersInRange, Reserve, SlotOutpoints, NonNegative, Valued, Credited, SpendsListed, AllPositive, Ready;
    hide StorableSlots;
    var slots, s1, promoted := MapStages(w, s, req, s');
    var found := MatchingOutputs(w, req.registry, TxID(w, req.tx), req.tx.txOut);
    FoundFacts(w, req, found, value);
    SlotFacts(found, |req.registry|, value, TxOutpoints(w, req.tx));
    UpdateUtxoSpendsEffect(s, TxID(w, req.tx), s1, promoted);
    PromotionKeepsReserve(s, s1);
    if SpendsListed(s) {
      UpdateKeepsSpendsListed(s, TxID(w, req.tx), s1, promoted);
    }
    IgnoredErrorHarmless(w, s1, req, slots);
    ProcessEffect(w, s1, req, slots, s', value);
    AllFound(w, req, found, slots, s');
    MappedFrom(s, s1, s', SlotOutpoints(slots), TxOutpoints(w, req.tx), value);
  }

  lemma MappedFrom(s: State, s1: State, s': State, seen: set<Outpoint>, outputs: set<Outpoint>, value: Outpoint -> int)
    requires s1 == s.(utxoList := s1.utxoList, utxos := s1.utxos, confirmedNextId := s1.confirmedNextId,
                      txSpends := s1.txSpends, txSpendsList := s1.txSpendsList)
    requires |s1.utxoList| == |s.utxoList| && Reserve(s1) == Reserve(s)
    requires Coherent(s') && CountersInRange(s') && UserLedger(s')
    requires Reserve(s') - Accounted(s') == Reserve(s1) - Accounted(s1)
    requires SumValues(s'.observed, value) - SumValues(s1.observed, value)
      == s'.supply.userSupply - s1.supply.userSupply
    requires s1.observed <= s'.observed <= s1.observed + seen && seen <= outputs && s1.utxoList <= s'.utxoList
    requires s' == s1.(utxoList := s'.utxoList, utxos := s'.utxos, confirmedNextId := s'.confirmedNextId,
                       observed := s'.observed, balances := s'.balances, supply := s'.supply)
    requires s'.supply == s1.supply.(activeSupply := s'.supply.activeSupply, userSupply := s'.supply.userSupply)
    ensures Mapped(s, s', outputs, value)
  {
    hide Coherent, CountersInRange, UserLedger, SumValues, SumAmounts, Reserve;
  }

  lemma {:induction false} SameAmounts(a: UtxoRegistry, b: UtxoRegistry)
    requires |a| == |b| && forall i :: 0 <= i < |a| ==> a[i].amount == b[i].amount
    ensures SumAmounts(a) == SumAmounts(b)
  {
    if a != [] {
      SameAmounts(a[..|a| - 1], b[..|b| - 1]);
    }
  }

  lemma PromotionKeepsReserve(s: State, s1: State)
    requires |s1.utxoList| == |s.utxoList| && forall i :: 0 <= i < |s.utxoList| ==> SameCoin(s, s1, i)
    ensures Reserve(s1) == Reserve(s)
  {
    forall i | 0 <= i < |s.utxoList| ensures s1.utxoList[i].amount == s.utxoList[i].amount {
      assert SameCoin(s, s1, i);
    }
    SameAmounts(s1.utxoList, s.utxoList);
  }

  lemma AllFound(w: Btc, req: MapRequest, found: seq<Utxo>, slots: seq<Option<Utxo>>, s': State)
    requires slots == Slots(found, |req.registry|) && |found| <= |req.registry|
    requires forall j :: 0 <= j < |slots| ==> slots[j].Some? && Credited(w, req, slots[j].value, s')
    ensures |found| == |req.registry| && forall j :: 0 <= j < |found| ==> Credited(w, req, found[j], s')
  {
    EmptySlotRemains(found, |req.registry|);
    forall j | 0 <= j < |found| ensures Credited(w, req, found[j], s') {
      assert slots[j] == Some(found[j]);
    }
  }

  /** Crediting and the closing supply update. */
  lemma ProcessEffect(w: Btc, s: State, req: MapRequest, slots: seq<Option<Utxo>>, s': State, value: Outpoint -> int)
    requires Ready(s, slots) && Coherent(s) && s.supply.userSupply == s.supply.activeSupply && Valued(slots, value)
    requires ProcessUtxos(w, s, req, slots, false) == Ok(s')
    ensures CountersInRange(s') && Coherent(s')
    ensures Reserve(s') - Accounted(s') == Reserve(s) - Accounted(s)
    ensures SumValues(s'.observed, value) - SumValues(s.observed, value) == s'.supply.userSupply - s.supply.userSupply
    ensures s.observed <= s'.observed <= s.observed + SlotOutpoints(slots) && s.utxoList <= s'.utxoList
    ensures s' == s.(utxoList := s'.utxoList, utxos := s'.utxos, confirmedNextId := s'.confirmedNextId,
                     observed := s'.observed, balances := s'.balances, supply := s'.supply)
    ensures s'.supply == s.supply.(activeSupply := s'.supply.activeSupply, userSupply := s'.supply.userSupply)
    ensures forall j :: 0 <= j < |slots| ==> slots[j].Some? && Credited(w, req, slots[j].value, s')
  {
    hide CreditAll, Coherent, SumValues, SlotOutpoints, SumAmounts;
    var p := CreditAll(w, Progress(s, 0), req, slots, 0, false).value;
    CreditAllEffect(w, Progress(s, 0), req, slots, 0, false, p, value);
    SupplyOnly(p.state, s');
  }

  lemma SupplyOnly(s: State, s': State)
    requires s' == s.(supply := s'.supply)
    ensures Coherent(s) ==> Coherent(s')
    ensures Reserve(s') == Reserve(s)
  {
  }
}
