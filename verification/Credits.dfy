// Whose balance a deposit call raises, by how much, and what it stores: said of the transaction's
// outputs, the registered addresses and the outpoints already observed, and of nothing else.

module Credits {
  import opened Wrappers
  import opened Int64
  import opened Bytes
  import opened Text
  import opened Types
  import opened Keys
  import opened World
  import opened Accounts
  import opened Spend
  import opened State
  import opened Pools
  import opened Promotion
  import opened Mapping
  import opened Crediting
  import opened Unmapping

  // ---------------------------------------------------------------- what is owed

  /** The registration of the address a script pays: of its first address. */
  function Registration(w: Btc, registry: map<string, AddressMetadata>, script: Bytes): (m: Option<AddressMetadata>) {
    var addrs := w.addrsOf(script);
    if addrs.Some? && addrs.value != [] && addrs.value[0] in registry then Some(registry[addrs.value[0]]) else None
  }

  /** A deposit is for the registered recipient, a swap for the account that sent the call. */
  function Beneficiary(req: MapRequest, m: AddressMetadata): string {
    if m.kind.MapDeposit? then m.recipient else req.env.sender
  }

  /** An amount paid to a script raises the balance of this account. */
  predicate For(w: Btc, req: MapRequest, script: Bytes, account: string) {
    var m := Registration(w, req.registry, script);
    m.Some? && Beneficiary(req, m.value) == account
  }

  /** What the first n outputs of the transaction owe an account, outpoints already observed aside. */
  function Owed(w: Btc, req: MapRequest, observed: set<Outpoint>, account: string, n: nat): int
    requires n <= |req.tx.txOut| <= 0x1_0000_0000
  {
    if n == 0 then 0 else
    var out := req.tx.txOut[n - 1];
    Owed(w, req, observed, account, n - 1)
    + if For(w, req, out.pkScript, account) && Outpoint(TxID(w, req.tx), n - 1) !in observed then out.value else 0
  }

  /** The outpoints of the outputs that pay a registered address. */
  ghost function Registered(w: Btc, req: MapRequest): set<Outpoint>
    requires |req.tx.txOut| <= 0x1_0000_0000
  {
    set i | 0 <= i < |req.tx.txOut| && Registration(w, req.registry, req.tx.txOut[i].pkScript).Some?
      :: Outpoint(TxID(w, req.tx), i)
  }

  predicate AllDeposits(registry: map<string, AddressMetadata>) {
    forall a :: a in registry ==> registry[a].kind.MapDeposit?
  }

  /** No router call of the request moves the account's funds: there are no swaps, or no transfer has
      the account as sender, caller or recipient. */
  ghost predicate Bystander(req: MapRequest, account: string) {
    AllDeposits(req.registry) || forall i :: 0 <= i < |req.calls| ==> NoParty(req.calls[i].transfers, account)
  }

  predicate NoParty(transfers: seq<(Env, TransferParams)>, account: string) {
    forall j :: 0 <= j < |transfers| ==>
      account != transfers[j].0.sender && account != transfers[j].0.caller && account != transfers[j].1.to
  }

  // ---------------------------------------------------------------- one output

  lemma TransferElsewhere(w: Btc, env: Env, b: Balances, p: TransferParams, account: string)
    requires account != env.sender && account != env.caller && account != p.to
    ensures Transfer(w, env, b, p).Ok? ==> GetBal(Transfer(w, env, b, p).value, account) == GetBal(b, account)
  {
    hide DrawLimit, ParseInt64;
  }

  lemma {:induction false} TransfersElsewhere(w: Btc, b: Balances, transfers: seq<(Env, TransferParams)>,
                                              account: string)
    requires NoParty(transfers, account)
    ensures GetBal(RunTransfers(w, b, transfers), account) == GetBal(b, account)
    decreases |transfers|
  {
    hide Transfer;
    if transfers != [] {
      var t := Transfer(w, transfers[0].0, b, transfers[0].1);
      TransferElsewhere(w, transfers[0].0, b, transfers[0].1, account);
      TransfersElsewhere(w, if t.Ok? then t.value else b, transfers[1..], account);
    }
  }

  /** The balance side of one output: the beneficiary gains the amount. */
  lemma CreditFor(w: Btc, s: State, req: MapRequest, i: nat, m: AddressMetadata, amount: Int64, b: Balances,
                  account: string)
    requires CreditBalances(w, s, req, i, m, amount, true) == Ok(b)
    requires m.kind.MapDeposit? || forall i :: 0 <= i < |req.calls| ==> NoParty(req.calls[i].transfers, account)
    ensures GetBal(b, account) == GetBal(s.balances, account) + if Beneficiary(req, m) == account then amount else 0
  {
    hide RunTransfers;
    if m.kind.MapSwap? {
      var raised := SetBal(s.balances, req.env.sender, GetBal(s.balances, req.env.sender) + amount);
      assert i < |req.calls|;
      TransfersElsewhere(w, raised, req.calls[i].transfers, account);
    }
  }

  /** What is due for one coin, seen against the outpoints observed so far. */
  function Due(w: Btc, req: MapRequest, observed: set<Outpoint>, account: string, u: Utxo): int {
    if For(w, req, u.pkScript, account) && OutpointOf(u) !in observed then u.amount else 0
  }

  lemma CreditOneFor(w: Btc, p: Progress, req: MapRequest, i: nat, slot: Option<Utxo>, p': Progress, account: string)
    requires Ready(p.state, [slot]) && CreditOne(w, p, req, i, slot, true) == Ok(p') && Bystander(req, account)
    ensures slot.Some?
    ensures GetBal(p'.state.balances, account)
         == GetBal(p.state.balances, account) + Due(w, req, p.state.observed, account, slot.value)
    ensures p'.state.observed == p.state.observed
      + if Registration(w, req.registry, slot.value.pkScript).Some? then {OutpointOf(slot.value)} else {}
  {
    hide CreditBalances, Allocate;
    assert [slot][0] == slot;
    var u := slot.value;
    var addrs := w.addrsOf(u.pkScript);
    if addrs.value[0] in req.registry && OutpointOf(u) !in p.state.observed {
      var a := AllocateConfirmed(p.state.confirmedNextId, p.state.utxos.Keys);
      var m := req.registry[addrs.value[0]];
      CreditFor(w, Register(p.state, a.value, u), req, i, m, u.amount, p'.state.balances, account);
    }
  }

  // ---------------------------------------------------------------- all outputs

  /** Coins of different outpoints. */
  ghost predicate Apart(found: seq<Utxo>) {
    forall i, j :: 0 <= i < j < |found| ==> OutpointOf(found[i]) != OutpointOf(found[j])
  }

  function AllDue(w: Btc, req: MapRequest, observed: set<Outpoint>, account: string, found: seq<Utxo>): int {
    if found == [] then 0
    else Due(w, req, observed, account, found[0]) + AllDue(w, req, observed, account, found[1..])
  }

  lemma {:induction false} AllDueAppend(w: Btc, req: MapRequest, observed: set<Outpoint>, account: string,
                                        found: seq<Utxo>, u: Utxo)
    ensures AllDue(w, req, observed, account, found + [u])
         == AllDue(w, req, observed, account, found) + Due(w, req, observed, account, u)
  {
    hide Due;
    if found == [] {
      assert [u][1..] == [];
    } else {
      assert (found + [u])[0] == found[0] && (found + [u])[1..] == found[1..] + [u];
      AllDueAppend(w, req, observed, account, found[1..], u);
    }
  }

  /** Observing an outpoint changes nothing for coins of other outpoints. */
  lemma {:induction false} AllDueApart(w: Btc, req: MapRequest, observed: set<Outpoint>, account: string,
                                       found: seq<Utxo>, o: Outpoint)
    requires forall i :: 0 <= i < |found| ==> OutpointOf(found[i]) != o
    ensures AllDue(w, req, observed + {o}, account, found) == AllDue(w, req, observed, account, found)
  {
    hide For;
    if found != [] {
      assert OutpointOf(found[0]) != o;
      AllDueApart(w, req, observed, account, found[1..], o);
    }
  }

  function RegisteredAmong(w: Btc, req: MapRequest, found: seq<Utxo>): set<Outpoint> {
    set i | 0 <= i < |found| && Registration(w, req.registry, found[i].pkScript).Some? :: OutpointOf(found[i])
  }

  lemma RegisteredFirst(w: Btc, req: MapRequest, found: seq<Utxo>)
    requires found != []
    ensures RegisteredAmong(w, req, found) == RegisteredAmong(w, req, found[1..])
      + if Registration(w, req.registry, found[0].pkScript).Some? then {OutpointOf(found[0])} else {}
  {
    hide Registration;
    var all, rest := RegisteredAmong(w, req, found), RegisteredAmong(w, req, found[1..]);
    forall o | o in all && o != OutpointOf(found[0]) ensures o in rest {
      var i :| 0 <= i < |found| && Registration(w, req.registry, found[i].pkScript).Some? && o == OutpointOf(found[i]);
      assert found[1..][i - 1] == found[i];
    }
    forall o | o in rest ensures o in all {
      var i :| 0 <= i < |found| - 1 && Registration(w, req.registry, found[1..][i].pkScript).Some?
        && o == OutpointOf(found[1..][i]);
      assert found[i + 1] == found[1..][i];
    }
  }

  /** A crediting pass over the coins from the i-th on. */
  lemma {:induction false} CreditAllFor(w: Btc, p: Progress, req: MapRequest, slots: seq<Option<Utxo>>, i: nat,
                                        found: seq<Utxo>, p': Progress, account: string)
    requires i <= |slots| && Ready(p.state, slots) && CreditAll(w, p, req, slots, i, true) == Ok(p')
    requires |found| == |slots| - i && (forall j :: 0 <= j < |found| ==> slots[i + j] == Some(found[j]))
    requires Apart(found) && Bystander(req, account)
    ensures GetBal(p'.state.balances, account)
         == GetBal(p.state.balances, account) + AllDue(w, req, p.state.observed, account, found)
    ensures p'.state.observed == p.state.observed + RegisteredAmong(w, req, found)
    decreases |slots| - i
  {
    hide CreditOne, Due, Registration, Bystander;
    if i < |slots| {
      assert [slots[i]][0] == slots[i] && slots[i + 0] == Some(found[0]);
      var p1 := CreditOne(w, p, req, i, slots[i], true).value;
      CreditOneFor(w, p, req, i, slots[i], p1, account);
      RegisteredFirst(w, req, found);
      forall j | 0 <= j < |found| - 1 ensures slots[i + 1 + j] == Some(found[1..][j]) {
        assert slots[i + (j + 1)] == Some(found[j + 1]);
      }
      CreditAllFor(w, p1, req, slots, i + 1, found[1..], p', account);
      AllDueApart(w, req, p.state.observed, account, found[1..], OutpointOf(found[0]));
      assert p.state.observed + {} == p.state.observed;
    }
  }

  // ---------------------------------------------------------------- coins and outputs

  lemma {:induction false} MatchingApart(w: Btc, registry: map<string, AddressMetadata>, txId: TxId, outs: seq<TxOut>)
    requires |outs| <= 0x1_0000_0000
    ensures Apart(MatchingOutputs(w, registry, txId, outs))
  {
    hide RegisteredAddress;
    if outs != [] {
      var n := |outs| - 1;
      MatchingApart(w, registry, txId, outs[..n]);
      var front := MatchingOutputs(w, registry, txId, outs[..n]);
      forall i | 0 <= i < |front| ensures front[i].vout < n {
        MatchingMember(w, registry, txId, outs[..n], front[i]);
      }
    }
  }

  lemma FirstIsRegistered(w: Btc, registry: map<string, AddressMetadata>, out: TxOut)
    ensures Registration(w, registry, out.pkScript).Some? ==>
      var a := RegisteredAddress(w, out, registry);
      a.Some? && registry[a.value] == Registration(w, registry, out.pkScript).value
  {
  }

  /** The coins indexed among the first n outputs. */
  function Indexed(w: Btc, req: MapRequest, n: nat): seq<Utxo>
    requires n <= |req.tx.txOut| <= 0x1_0000_0000
  {
    MatchingOutputs(w, req.registry, TxID(w, req.tx), req.tx.txOut[..n])
  }

  lemma IndexedStep(w: Btc, req: MapRequest, n: nat) returns (a: Option<string>)
    requires n < |req.tx.txOut| <= 0x1_0000_0000
    ensures a == RegisteredAddress(w, req.tx.txOut[n], req.registry)
    ensures Indexed(w, req, n + 1) == Indexed(w, req, n)
      + if a.Some? then [DepositUtxo(TxID(w, req.tx), n, req.tx.txOut[n], req.registry[a.value].tag)] else []
  {
    hide RegisteredAddress, TxID;
    assert req.tx.txOut[..n + 1][..n] == req.tx.txOut[..n];
    a := RegisteredAddress(w, req.tx.txOut[n], req.registry);
  }

  /** What the coins are due is what the outputs owe. */
  lemma {:induction false} DueIsOwed(w: Btc, req: MapRequest, observed: set<Outpoint>, account: string, n: nat)
    requires n <= |req.tx.txOut| <= 0x1_0000_0000
    ensures AllDue(w, req, observed, account, Indexed(w, req, n)) == Owed(w, req, observed, account, n)
  {
    if n > 0 {
      hide RegisteredAddress, TxID, Indexed, Registration;
      DueIsOwed(w, req, observed, account, n - 1);
      var a := IndexedStep(w, req, n - 1);
      FirstIsRegistered(w, req.registry, req.tx.txOut[n - 1]);
      if a.Some? {
        AllDueAppend(w, req, observed, account, Indexed(w, req, n - 1),
          DepositUtxo(TxID(w, req.tx), n - 1, req.tx.txOut[n - 1], req.registry[a.value].tag));
      } else {
        assert Indexed(w, req, n - 1) + [] == Indexed(w, req, n - 1);
      }
    } else {
      assert Indexed(w, req, 0) == [] by { NothingIndexed(w, req); }
    }
  }

  lemma NothingIndexed(w: Btc, req: MapRequest)
    requires |req.tx.txOut| <= 0x1_0000_0000
    ensures Indexed(w, req, 0) == []
    ensures Indexed(w, req, |req.tx.txOut|) == MatchingOutputs(w, req.registry, TxID(w, req.tx), req.tx.txOut)
  {
    assert req.tx.txOut[..|req.tx.txOut|] == req.tx.txOut;
  }

  lemma RegisteredCoins(w: Btc, req: MapRequest, found: seq<Utxo>)
    requires |req.tx.txOut| <= 0x1_0000_0000
    requires found == MatchingOutputs(w, req.registry, TxID(w, req.tx), req.tx.txOut)
    ensures RegisteredAmong(w, req, found) == Registered(w, req)
  {
    hide MatchingOutputs, TxID, Registration, RegisteredAddress;
    var txId := TxID(w, req.tx);
    forall o | o in RegisteredAmong(w, req, found) ensures o in Registered(w, req) {
      var j :| 0 <= j < |found| && Registration(w, req.registry, found[j].pkScript).Some? && o == OutpointOf(found[j]);
      MatchingMember(w, req.registry, txId, req.tx.txOut, found[j]);
      assert o == Outpoint(txId, found[j].vout);
    }
    forall o | o in Registered(w, req) ensures o in RegisteredAmong(w, req, found) {
      var i :| 0 <= i < |req.tx.txOut| && Registration(w, req.registry, req.tx.txOut[i].pkScript).Some?
        && o == Outpoint(txId, i);
      FirstIsRegistered(w, req.registry, req.tx.txOut[i]);
      MatchingComplete(w, req.registry, txId, req.tx.txOut, i);
      var a := RegisteredAddress(w, req.tx.txOut[i], req.registry).value;
      var u := DepositUtxo(txId, i, req.tx.txOut[i], req.registry[a].tag);
      var j :| 0 <= j < |found| && found[j] == u;
      assert OutpointOf(found[j]) == o;
    }
  }

  // ---------------------------------------------------------------- the whole call

  lemma AmountsNotNegative(w: Btc, req: MapRequest, found: seq<Utxo>)
    requires WellFormed(w, req) && NonNegativeOutputs(req.tx)
    requires found == MatchingOutputs(w, req.registry, TxID(w, req.tx), req.tx.txOut)
    ensures NonNegative(Slots(found, |req.registry|))
  {
    hide MatchingOutputs, TxID, RegisteredAddress;
    forall j | 0 <= j < |found| ensures found[j].amount >= 0 {
      MatchingMember(w, req.registry, TxID(w, req.tx), req.tx.txOut, found[j]);
    }
  }

  lemma ProcessedBalances(w: Btc, s: State, req: MapRequest, slots: seq<Option<Utxo>>, s': State)
    returns (p: Progress)
    requires Ready(s, slots) && ProcessUtxos(w, s, req, slots, true) == Ok(s')
    ensures CreditAll(w, Progress(s, 0), req, slots, 0, true) == Ok(p)
    ensures s'.balances == p.state.balances && s'.observed == p.state.observed
    ensures s'.utxos == p.state.utxos && s'.utxoList == p.state.utxoList
  {
    hide CreditAll;
    p := CreditAll(w, Progress(s, 0), req, slots, 0, true).value;
  }

  lemma {:induction false} EverySlotFilled(w: Btc, p: Progress, req: MapRequest, slots: seq<Option<Utxo>>, i: nat)
    requires i <= |slots| && Ready(p.state, slots) && CreditAll(w, p, req, slots, i, true).Ok?
    ensures forall j :: i <= j < |slots| ==> slots[j].Some?
    decreases |slots| - i
  {
    if i < |slots| {
      assert slots[i].Some?;
      hide CreditOne;
      assert [slots[i]][0] == slots[i];
      EverySlotFilled(w, CreditOne(w, p, req, i, slots[i], true).value, req, slots, i + 1);
    }
  }

  lemma FoundFills(w: Btc, s: State, req: MapRequest, slots: seq<Option<Utxo>>, p: Progress, found: seq<Utxo>)
    requires Ready(s, slots) && CreditAll(w, Progress(s, 0), req, slots, 0, true) == Ok(p)
    requires slots == Slots(found, |req.registry|) && |found| <= |req.registry|
    ensures |found| == |slots| && forall j :: 0 <= j < |found| ==> slots[0 + j] == Some(found[j])
  {
    EverySlotFilled(w, Progress(s, 0), req, slots, 0);
    EmptySlotRemains(found, |req.registry|);
    hide CreditAll;
  }

  /** The stages of a completed deposit call with the coins it credits, one for each slot. */
  lemma CreditStages(w: Btc, s: State, req: MapRequest, s': State)
    returns (found: seq<Utxo>, slots: seq<Option<Utxo>>, s1: State, p: Progress)
    requires CountersInRange(s) && UserLedger(s) && WellFormed(w, req) && NonNegativeOutputs(req.tx)
    requires MapTx(w, s, req, false) == Ok(s')
    ensures |req.tx.txOut| <= 0x1_0000_0000
    ensures found == MatchingOutputs(w, req.registry, TxID(w, req.tx), req.tx.txOut) && Apart(found)
    ensures |found| == |slots| && forall j :: 0 <= j < |found| ==> slots[0 + j] == Some(found[j])
    ensures Ready(s1, slots) && CreditAll(w, Progress(s1, 0), req, slots, 0, true) == Ok(p)
    ensures s1.balances == s.balances && s1.observed == s.observed && s1.router == s.router
    ensures s'.balances == p.state.balances && s'.observed == p.state.observed
    ensures s'.utxos == p.state.utxos && s'.utxoList == p.state.utxoList
  {
    assert |req.tx.txOut| <= 0x1_0000_0000 && CountersInRange(s) && WellFormed(w, req);
    hide MapTx, MatchingOutputs, TxID, Slots, UpdateUtxoSpends, VerifyTransaction, WellFormed, ProcessUtxos;
    hide CountersInRange, StorableSlots, NonNegativeOutputs, NonNegative, SumBalances, Apart;
    var promoted;
    slots, s1, promoted := MapStages(w, s, req, s');
    UpdateFrame(s, TxID(w, req.tx));
    found := MatchingOutputs(w, req.registry, TxID(w, req.tx), req.tx.txOut);
    AmountsNotNegative(w, req, found);
    IgnoredErrorHarmless(w, s1, req, slots);
    p := ProcessedBalances(w, s1, req, slots, s');
    FoundFills(w, s1, req, slots, p, found);
    MatchingApart(w, req.registry, TxID(w, req.tx), req.tx.txOut);
  }

  /** A completed deposit call raises every account's balance by exactly what the newly observed outputs
      owe it: a deposit to the recipient registered for the address it pays, a swap to the sender of the
      call. Accounts named by none keep their balance. For an account that a router call moves funds of,
      the law is that of each single swap (SwapCredit). The outpoints observed afterwards are those from
      before and the outputs to registered addresses, and no others. */
  lemma DepositCredits(w: Btc, s: State, req: MapRequest, s': State, account: string)
    requires CountersInRange(s) && UserLedger(s) && WellFormed(w, req) && NonNegativeOutputs(req.tx)
    requires MapTx(w, s, req, false) == Ok(s') && Bystander(req, account)
    ensures |req.tx.txOut| <= 0x1_0000_0000
    ensures GetBal(s'.balances, account)
         == GetBal(s.balances, account) + Owed(w, req, s.observed, account, |req.tx.txOut|)
    ensures s'.observed == s.observed + Registered(w, req)
  {
    hide MapTx, MatchingOutputs, TxID, WellFormed, CountersInRange, UserLedger, NonNegativeOutputs, Owed, AllDue;
    hide Registered, RegisteredAmong, Bystander;
    var found, slots, s1, p := CreditStages(w, s, req, s');
    hide Apart;
    CreditAllFor(w, Progress(s1, 0), req, slots, 0, found, p, account);
    hide CreditAll;
    NothingIndexed(w, req);
    DueIsOwed(w, req, s.observed, account, |req.tx.txOut|);
    RegisteredCoins(w, req, found);
  }

  // ---------------------------------------------------------------- swaps

  /** Transfers of a router call run in order, and one that fails changes nothing. */
  lemma {:induction false} TransfersInOrder(w: Btc, b: Balances, first: seq<(Env, TransferParams)>, env: Env,
                                            p: TransferParams)
    ensures var b1 := RunTransfers(w, b, first);
      var t := Transfer(w, env, b1, p);
      RunTransfers(w, b, first + [(env, p)]) == if t.Ok? then t.value else b1
    decreases |first|
  {
    hide Transfer;
    if first == [] {
      assert ([] + [(env, p)])[1..] == [];
      assert first + [(env, p)] == [(env, p)] && [(env, p)][1..] == [];
    } else {
      var t := Transfer(w, first[0].0, b, first[0].1);
      assert (first + [(env, p)])[0] == first[0] && (first + [(env, p)])[1..] == first[1..] + [(env, p)];
      TransfersInOrder(w, if t.Ok? then t.value else b, first[1..], env, p);
    }
  }

  /** A new output to an address registered for a swap. */
  predicate SwapsNow(w: Btc, req: MapRequest, u: Utxo, observed: set<Outpoint>) {
    var m := Registration(w, req.registry, u.pkScript);
    m.Some? && m.value.kind.MapSwap? && OutpointOf(u) !in observed
  }

  /** What a swap needs: a router, an asset to swap to, and a reply of the i-th call that parses. */
  predicate SwapAnswered(w: Btc, req: MapRequest, i: nat, u: Utxo, router: Bytes) {
    var m := Registration(w, req.registry, u.pkScript);
    && m.Some? && m.value.kind.MapSwap? && m.value.kind.hasAssetOut
    && router != [] && i < |req.calls| && req.calls[i].resultParses
  }

  /** A single swap: the sender of the call is credited first, then the router moves what it moves. */
  lemma SwapCredit(w: Btc, p: Progress, req: MapRequest, i: nat, u: Utxo, checked: bool, p': Progress)
    requires Ready(p.state, [Some(u)]) && CreditOne(w, p, req, i, Some(u), checked) == Ok(p')
    requires SwapsNow(w, req, u, p.state.observed)
    ensures SwapAnswered(w, req, i, u, p.state.router) && p'.state.router == p.state.router
    ensures var held := GetBal(p.state.balances, req.env.sender);
      && InInt64(held + u.amount)
      && p'.state.balances
      == RunTransfers(w, SetBal(p.state.balances, req.env.sender, held + u.amount), req.calls[i].transfers)
  {
    hide RunTransfers, Allocate;
    assert [Some(u)][0] == Some(u);
  }

  lemma {:induction false} SwapsAnsweredFrom(w: Btc, p: Progress, req: MapRequest, slots: seq<Option<Utxo>>, i: nat,
                                             found: seq<Utxo>, p': Progress, router: Bytes)
    requires i <= |slots| && Ready(p.state, slots) && CreditAll(w, p, req, slots, i, true) == Ok(p')
    requires |found| == |slots| - i && (forall j :: 0 <= j < |found| ==> slots[i + j] == Some(found[j]))
    requires Apart(found) && p.state.router == router
    ensures forall j :: 0 <= j < |found| && SwapsNow(w, req, found[j], p.state.observed) ==>
      SwapAnswered(w, req, i + j, found[j], router)
    decreases |slots| - i
  {
    hide Registration, CreditAll;
    if i < |slots| {
      var u := found[0];
      var p1 := FirstCredited(w, p, req, slots, i, p');
      assert slots[i + 0] == Some(u);
      hide CreditOne;
      if SwapsNow(w, req, u, p.state.observed) {
        assert [slots[i]] == [Some(u)];
        SwapCredit(w, p, req, i, u, true, p1);
      }
      forall j | 0 <= j < |found| - 1 ensures slots[i + 1 + j] == Some(found[1..][j]) {
        assert slots[i + (j + 1)] == Some(found[j + 1]);
      }
      SwapsAnsweredFrom(w, p1, req, slots, i + 1, found[1..], p', router);
      StepObserves(w, p, req, i, u, p1);
      forall j | 0 <= j < |found| && SwapsNow(w, req, found[j], p.state.observed)
        ensures SwapAnswered(w, req, i + j, found[j], router)
      {
        if j > 0 {
          assert OutpointOf(found[0]) != OutpointOf(found[j]) && found[1..][j - 1] == found[j];
          assert SwapAnswered(w, req, i + 1 + (j - 1), found[1..][j - 1], router);
        }
      }
    }
  }

  lemma FirstCredited(w: Btc, p: Progress, req: MapRequest, slots: seq<Option<Utxo>>, i: nat, p': Progress)
    returns (p1: Progress)
    requires i < |slots| && Ready(p.state, slots) && CreditAll(w, p, req, slots, i, true) == Ok(p')
    ensures Ready(p.state, [slots[i]]) && CreditOne(w, p, req, i, slots[i], true) == Ok(p1)
    ensures Ready(p1.state, slots) && CreditAll(w, p1, req, slots, i + 1, true) == Ok(p')
    ensures p1.state.router == p.state.router
  {
    hide CreditBalances, Allocate;
    assert [slots[i]][0] == slots[i];
    p1 := CreditOne(w, p, req, i, slots[i], true).value;
  }

  lemma StepObserves(w: Btc, p: Progress, req: MapRequest, i: nat, u: Utxo, p': Progress)
    requires Ready(p.state, [Some(u)]) && CreditOne(w, p, req, i, Some(u), true) == Ok(p')
    ensures p'.state.observed <= p.state.observed + {OutpointOf(u)}
  {
    hide CreditBalances, Allocate;
    assert [Some(u)][0] == Some(u);
  }

  // ---------------------------------------------------------------- what is stored

  /** The coin is stored under this confirmed id and registered with its amount. */
  ghost predicate HeldAt(s: State, id: Byte, u: Utxo) {
    && UTXO_CONFIRMED_POOL_START <= id && id in s.utxos && s.utxos[id] == u.Stored()
    && UtxoRegistryEntry(id, u.amount) in s.utxoList
  }

  ghost predicate Held(s: State, u: Utxo) {
    exists id: Byte :: HeldAt(s, id, u)
  }

  /** A new output to a registered address. */
  predicate Arrives(w: Btc, req: MapRequest, u: Utxo, observed: set<Outpoint>) {
    Registration(w, req.registry, u.pkScript).Some? && OutpointOf(u) !in observed
  }

  lemma CreditOneHolds(w: Btc, p: Progress, req: MapRequest, i: nat, u: Utxo, p': Progress)
    requires Ready(p.state, [Some(u)]) && CreditOne(w, p, req, i, Some(u), true) == Ok(p')
    ensures Arrives(w, req, u, p.state.observed) ==> Held(p'.state, u)
    ensures forall x :: Held(p.state, x) ==> Held(p'.state, x)
  {
    hide CreditBalances;
    assert [Some(u)][0] == Some(u);
    var a := AllocateConfirmed(p.state.confirmedNextId, p.state.utxos.Keys);
    AllocateMeaning(UTXO_CONFIRMED_POOL_START, UTXO_POOL_END, p.state.confirmedNextId, p.state.utxos.Keys);
    hide Allocate;
    if Arrives(w, req, u, p.state.observed) {
      assert HeldAt(p'.state, a.value.id, u);
    }
    forall x | Held(p.state, x) ensures Held(p'.state, x) {
      var id: Byte :| HeldAt(p.state, id, x);
      assert HeldAt(p'.state, id, x);
    }
  }

  lemma {:induction false} CreditAllHolds(w: Btc, p: Progress, req: MapRequest, slots: seq<Option<Utxo>>, i: nat,
                                          found: seq<Utxo>, p': Progress)
    requires i <= |slots| && Ready(p.state, slots) && CreditAll(w, p, req, slots, i, true) == Ok(p')
    requires |found| == |slots| - i && (forall j :: 0 <= j < |found| ==> slots[i + j] == Some(found[j]))
    requires Apart(found)
    ensures forall x :: Held(p.state, x) ==> Held(p'.state, x)
    ensures forall j :: 0 <= j < |found| && Arrives(w, req, found[j], p.state.observed) ==> Held(p'.state, found[j])
    decreases |slots| - i
  {
    hide Registration, CreditAll, Held;
    if i < |slots| {
      var u := found[0];
      var p1 := FirstCredited(w, p, req, slots, i, p');
      assert slots[i + 0] == Some(u) && [slots[i]] == [Some(u)];
      CreditOneHolds(w, p, req, i, u, p1);
      StepObserves(w, p, req, i, u, p1);
      hide CreditOne;
      forall j | 0 <= j < |found| - 1 ensures slots[i + 1 + j] == Some(found[1..][j]) {
        assert slots[i + (j + 1)] == Some(found[j + 1]);
      }
      CreditAllHolds(w, p1, req, slots, i + 1, found[1..], p');
      forall j | 0 <= j < |found| && Arrives(w, req, found[j], p.state.observed) ensures Held(p'.state, found[j])
      {
        if j > 0 {
          assert OutpointOf(found[0]) != OutpointOf(found[j]) && found[1..][j - 1] == found[j];
        }
      }
    } else {
      assert p' == p by { NothingLeft(w, p, req, slots, p'); }
    }
  }

  lemma NothingLeft(w: Btc, p: Progress, req: MapRequest, slots: seq<Option<Utxo>>, p': Progress)
    requires Ready(p.state, slots) && CreditAll(w, p, req, slots, |slots|, true) == Ok(p')
    ensures p' == p
  {
  }

  /** Every newly observed output of a completed call is stored under a confirmed id, with its transaction
      id, number, amount, script and the tag its address was registered with, and registered with its
      amount. */
  lemma DepositsStored(w: Btc, s: State, req: MapRequest, s': State, i: nat)
    requires CountersInRange(s) && UserLedger(s) && WellFormed(w, req) && NonNegativeOutputs(req.tx)
    requires MapTx(w, s, req, false) == Ok(s') && i < |req.tx.txOut| <= 0x1_0000_0000
    requires Registration(w, req.registry, req.tx.txOut[i].pkScript).Some?
    requires Outpoint(TxID(w, req.tx), i) !in s.observed
    ensures var out, m := req.tx.txOut[i], Registration(w, req.registry, req.tx.txOut[i].pkScript).value;
      Held(s', Utxo(TxID(w, req.tx), i, out.value, out.pkScript, Some(m.tag)))
  {
    hide MapTx, MatchingOutputs, TxID, WellFormed, CountersInRange, UserLedger, NonNegativeOutputs;
    hide Registration, RegisteredAddress;
    var found, slots, s1, p := CreditStages(w, s, req, s');
    hide Apart;
    CreditAllHolds(w, Progress(s1, 0), req, slots, 0, found, p);
    hide CreditAll;
    FirstIsRegistered(w, req.registry, req.tx.txOut[i]);
    MatchingComplete(w, req.registry, TxID(w, req.tx), req.tx.txOut, i);
    var m := Registration(w, req.registry, req.tx.txOut[i].pkScript).value;
    var u := Utxo(TxID(w, req.tx), i, req.tx.txOut[i].value, req.tx.txOut[i].pkScript, Some(m.tag));
    var j :| 0 <= j < |found| && found[j] == u;
    var id: Byte :| HeldAt(p.state, id, u);
    assert HeldAt(s', id, u);
  }

  /** A completed call answered every new swap: the router was known, the asset named and the reply of the
      call for that output parsed. */
  lemma SwapsAnswered(w: Btc, s: State, req: MapRequest, s': State)
    requires CountersInRange(s) && UserLedger(s) && WellFormed(w, req) && NonNegativeOutputs(req.tx)
    requires MapTx(w, s, req, false) == Ok(s') && |req.tx.txOut| <= 0x1_0000_0000
    ensures var found := MatchingOutputs(w, req.registry, TxID(w, req.tx), req.tx.txOut);
      forall j :: 0 <= j < |found| && SwapsNow(w, req, found[j], s.observed) ==>
        SwapAnswered(w, req, j, found[j], s.router)
  {
    hide MapTx, MatchingOutputs, TxID, WellFormed, CountersInRange, UserLedger, NonNegativeOutputs;
    hide SwapsNow, SwapAnswered;
    var found, slots, s1, p := CreditStages(w, s, req, s');
    hide Apart;
    SwapsAnsweredFrom(w, Progress(s1, 0), req, slots, 0, found, p, s.router);
    hide CreditAll;
    forall j | 0 <= j < |found| && SwapsNow(w, req, found[j], s.observed)
      ensures SwapAnswered(w, req, j, found[j], s.router)
    {
      assert SwapAnswered(w, req, 0 + j, found[j], s.router);
    }
  }
}
