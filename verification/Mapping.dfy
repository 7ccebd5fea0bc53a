// The deposit step (HandleMap in mapping.go) on typed state: verification,
// output indexing, crediting.

module Mapping {
  import opened Wrappers
  import opened Int64
  import opened Bytes
  import opened Text
  import opened Types
  import opened World
  import opened Accounts
  import opened Spend
  import opened State
  import opened Pools
  import opened Promotion
  import Proof

  datatype MappingType = MapDeposit | MapSwap(hasAssetOut: bool)

  datatype AddressMetadata = AddressMetadata(recipient: string, kind: MappingType, tag: Bytes)

  /** What the router does while a swap calls it: balance transfers; one that fails changes
      nothing. Its reply may or may not parse. */
  datatype RouterCall = RouterCall(transfers: seq<(Env, TransferParams)>, resultParses: bool)

  datatype MapRequest = MapRequest(
    env: Env,
    tx: MsgTx,
    blockHeight: Uint32,
    merkleProofHex: string,
    txIndex: Uint32,
    registry: map<string, AddressMetadata>,
    calls: seq<RouterCall>
  )

  // ---------------------------------------------------------------- verification

  /** Merkle root of a stored header. The decoder's error is ignored, so a missing or short
      header reads as if padded with zeros. */
  function HeaderRoot(raw: Bytes): Hash {
    (raw + seq(80, i => 0))[36..68]
  }

  function StoredHeader(headers: map<Uint32, Bytes>, height: Uint32): Bytes {
    if height in headers then headers[height] else []
  }

  /** verifyTransaction */
  function VerifyTransaction(w: Btc, headers: map<Uint32, Bytes>, req: MapRequest): (r: Option<Error>)
  {
    var proof := Proof.ProofOfHex(req.merkleProofHex);
    if proof.Err? then Some(proof.error)
    else if Proof.Climb(w.doubleHash, TxHash(w, req.tx), req.txIndex, proof.value)
       == HeaderRoot(StoredHeader(headers, req.blockHeight))
    then None else Some(ErrInput)
  }

  // ---------------------------------------------------------------- output indexing

  function FirstRegistered(addrs: seq<string>, registry: map<string, AddressMetadata>): (a: Option<string>)
    ensures a.Some? ==> a.value in registry
  {
    if addrs == [] then None
    else if addrs[0] in registry then Some(addrs[0])
    else FirstRegistered(addrs[1..], registry)
  }

  /** isForVscAcc: an output whose script cannot be read is not for the contract. */
  function RegisteredAddress(w: Btc, out: TxOut, registry: map<string, AddressMetadata>): (a: Option<string>)
    ensures a.Some? ==> a.value in registry
  {
    var addrs := w.addrsOf(out.pkScript);
    if addrs.None? then None else FirstRegistered(addrs.value, registry)
  }

  /** The sizes the contract relies on: P2WSH scripts, 32-byte tags, a 32-bit output count. */
  ghost predicate WellFormed(w: Btc, req: MapRequest) {
    && |req.tx.txOut| <= 0x1_0000_0000
    && (forall a :: a in req.registry ==> |req.registry[a].tag| == 32)
    && forall i :: 0 <= i < |req.tx.txOut| && RegisteredAddress(w, req.tx.txOut[i], req.registry).Some? ==>
         |req.tx.txOut[i].pkScript| == 34
  }

  function DepositUtxo(txId: TxId, vout: Uint32, out: TxOut, tag: Bytes): Utxo {
    Utxo(txId, vout, out.value, out.pkScript, Some(tag))
  }

  /** The outputs paying a registered address, in output order. */
  function MatchingOutputs(w: Btc, registry: map<string, AddressMetadata>, txId: TxId, outs: seq<TxOut>): (r: seq<Utxo>)
    requires |outs| <= 0x1_0000_0000
    ensures |r| <= |outs|
  {
    if outs == [] then [] else
    var n := |outs| - 1;
    var a := RegisteredAddress(w, outs[n], registry);
    MatchingOutputs(w, registry, txId, outs[..n])
    + if a.Some? then [DepositUtxo(txId, n, outs[n], registry[a.value].tag)] else []
  }

  /** indexOutputs: a slice of exactly one slot per registered address. One matching output too
      many is an index out of range. */
  function IndexOutputs(w: Btc, registry: map<string, AddressMetadata>, tx: MsgTx): (r: Result<seq<Option<Utxo>>>)
    requires |tx.txOut| <= 0x1_0000_0000
  {
    var found := MatchingOutputs(w, registry, TxID(w, tx), tx.txOut);
    if |found| > |registry| then Err(Trap) else Ok(Slots(found, |registry|))
  }

  // ---------------------------------------------------------------- crediting

  function RunTransfers(w: Btc, b: Balances, transfers: seq<(Env, TransferParams)>): (r: Balances)
    decreases |transfers|
  {
    if transfers == [] then b else
    var t := Transfer(w, transfers[0].0, b, transfers[0].1);
    RunTransfers(w, if t.Ok? then t.value else b, transfers[1..])
  }

  /** Allocates a confirmed id for a new deposit, registers and stores it, marks it observed. */
  function Register(s: State, a: Allocation, u: Utxo): State
    requires u.Storable()
  {
    s.(confirmedNextId := a.next,
       utxoList := s.utxoList + [UtxoRegistryEntry(a.id, u.amount)],
       utxos := s.utxos[a.id := u.Stored()],
       observed := s.observed + {OutpointOf(u)})
  }

  /** The balance side of one deposit. With `checked` false an overflowing credit of a plain
      deposit is dropped, as the code does; with `checked` true it would be an error. */
  function CreditBalances(w: Btc, s: State, req: MapRequest, i: nat, m: AddressMetadata, amount: Int64,
                          checked: bool): (r: Result<Balances>)
  {
    match m.kind
    case MapDeposit =>
      var newBal := SafeAdd64(GetBal(s.balances, m.recipient), amount);
      if newBal.Ok? then Ok(SetBal(s.balances, m.recipient, newBal.value))
      else if checked then Err(ErrArithmetic)
      else Ok(s.balances)
    case MapSwap(hasAssetOut) =>
      if s.router == [] then Err(ErrInitialization)
      else if !hasAssetOut then Err(ErrInput)
      else
        var newBal := SafeAdd64(GetBal(s.balances, req.env.sender), amount);
        if newBal.Err? then Err(ErrStateAccess)
        else
          var call := if i < |req.calls| then req.calls[i] else RouterCall([], false);
          if !call.resultParses then Err(ErrJson)
          else Ok(RunTransfers(w, SetBal(s.balances, req.env.sender, newBal.value), call.transfers))
  }

  /** A crediting pass in progress: the state and the amount mapped so far. */
  datatype Progress = Progress(state: State, total: Int64)

  ghost predicate Ready(s: State, slots: seq<Option<Utxo>>) {
    CountersInRange(s) && StorableSlots(slots)
  }

  /** One relevant output. An empty slot has an empty script, which names no address to look up. */
  function CreditOne(w: Btc, p: Progress, req: MapRequest, i: nat, slot: Option<Utxo>,
                     checked: bool): (r: Result<Progress>)
    requires Ready(p.state, [slot])
    ensures r.Ok? ==> CountersInRange(r.value.state)
  {
    if slot.None? then Err(Trap) else
    var u := slot.value;
    var addrs := w.addrsOf(u.pkScript);
    if addrs.None? then Err(ErrInput)
    else if addrs.value == [] then Err(Trap)
    else if addrs.value[0] !in req.registry then Ok(p)
    else if OutpointOf(u) in p.state.observed then Ok(p)
    else
      assert u.Storable() by { assert [slot][0] == slot; }
      var a :- AllocateConfirmed(p.state.confirmedNextId, p.state.utxos.Keys);
      var s1 := Register(p.state, a, u);
      var balances :- CreditBalances(w, s1, req, i, req.registry[addrs.value[0]], u.amount, checked);
      var total :- SafeAdd64(p.total, u.amount);
      Ok(Progress(s1.(balances := balances), total))
  }

  function CreditAll(w: Btc, p: Progress, req: MapRequest, slots: seq<Option<Utxo>>, i: nat,
                     checked: bool): (r: Result<Progress>)
    requires i <= |slots| && Ready(p.state, slots)
    decreases |slots| - i
  {
    if i == |slots| then Ok(p) else
    assert [slots[i]][0] == slots[i];
    var p1 :- CreditOne(w, p, req, i, slots[i], checked);
    CreditAll(w, p1, req, slots, i + 1, checked)
  }

  /** The supply update that closes processUtxos. */
  function AddSupply(p: Progress): (r: Result<State>)
  {
    if p.total == 0 then Ok(p.state) else
    var newActive :- SafeAdd64(p.state.supply.activeSupply, p.total);
    var newUser :- SafeAdd64(p.state.supply.userSupply, p.total);
    Ok(p.state.(supply := p.state.supply.(activeSupply := newActive, userSupply := newUser)))
  }

  function ProcessUtxos(w: Btc, s: State, req: MapRequest, slots: seq<Option<Utxo>>, checked: bool): (r: Result<State>)
    requires Ready(s, slots)
  {
    var p :- CreditAll(w, Progress(s, 0), req, slots, 0, checked);
    AddSupply(p)
  }

  /** HandleMap. The result of updateUtxoSpends is not looked at. */
  function MapTx(w: Btc, s: State, req: MapRequest, checked: bool): (r: Result<State>)
    requires CountersInRange(s) && WellFormed(w, req)
  {
    var failure := VerifyTransaction(w, s.headers, req);
    if failure.Some? then Err(failure.value) else
    var slots :- IndexOutputs(w, req.registry, req.tx);
    var (s1, _) := UpdateUtxoSpends(s, TxID(w, req.tx));
    assert Ready(s1, slots) by { SlotsStorable(w, req); }
    ProcessUtxos(w, s1, req, slots, checked)
  }

  lemma {:induction false} MatchingMember(w: Btc, registry: map<string, AddressMetadata>, txId: TxId, outs: seq<TxOut>,
                                          u: Utxo)
    requires |outs| <= 0x1_0000_0000 && u in MatchingOutputs(w, registry, txId, outs)
    ensures u.vout < |outs| && u.txId == txId && u.amount == outs[u.vout].value && u.pkScript == outs[u.vout].pkScript
    ensures var a := RegisteredAddress(w, outs[u.vout], registry); a.Some? && u.tag == Some(registry[a.value].tag)
  {
    var n := |outs| - 1;
    if u in MatchingOutputs(w, registry, txId, outs[..n]) {
      MatchingMember(w, registry, txId, outs[..n], u);
    }
  }

  /** No output that pays a registered address is missed. */
  lemma {:induction false} MatchingComplete(w: Btc, registry: map<string, AddressMetadata>, txId: TxId,
                                            outs: seq<TxOut>, i: nat)
    requires i < |outs| <= 0x1_0000_0000 && RegisteredAddress(w, outs[i], registry).Some?
    ensures var a := RegisteredAddress(w, outs[i], registry).value;
      DepositUtxo(txId, i, outs[i], registry[a].tag) in MatchingOutputs(w, registry, txId, outs)
  {
    hide RegisteredAddress;
    if i < |outs| - 1 {
      MatchingComplete(w, registry, txId, outs[..|outs| - 1], i);
    }
  }

  lemma SlotsStorable(w: Btc, req: MapRequest)
    requires WellFormed(w, req)
    ensures var slots := Slots(MatchingOutputs(w, req.registry, TxID(w, req.tx), req.tx.txOut), |req.registry|);
      StorableSlots(slots)
  {
    var found := MatchingOutputs(w, req.registry, TxID(w, req.tx), req.tx.txOut);
    hide MatchingOutputs, TxID;
    forall j | 0 <= j < |found| ensures found[j].Storable() {
      MatchingMember(w, req.registry, TxID(w, req.tx), req.tx.txOut, found[j]);
    }
  }

  /** An output is for the contract exactly when some address of its script is registered, and then it is the
      first such address that counts. */
  lemma RegisteredExact(w: Btc, out: TxOut, registry: map<string, AddressMetadata>)
    ensures var addrs, a := w.addrsOf(out.pkScript), RegisteredAddress(w, out, registry);
      && (a.Some? <==> addrs.Some? && exists i :: 0 <= i < |addrs.value| && addrs.value[i] in registry)
      && (a.Some? ==> exists i :: 0 <= i < |addrs.value| && FirstAmong(addrs.value, registry, i, a.value))
  {
    var addrs := w.addrsOf(out.pkScript);
    if addrs.Some? {
      var i := FirstRegisteredExact(addrs.value, registry);
    }
  }

  /** The i-th address is this one, registered, and no earlier one is. */
  ghost predicate FirstAmong(addrs: seq<string>, registry: map<string, AddressMetadata>, i: nat, a: string) {
    && i < |addrs| && addrs[i] == a && a in registry
    && forall j :: 0 <= j < i ==> addrs[j] !in registry
  }

  lemma {:induction false} FirstRegisteredExact(addrs: seq<string>, registry: map<string, AddressMetadata>)
    returns (i: nat)
    ensures var a := FirstRegistered(addrs, registry);
      && (a.None? ==> forall j :: 0 <= j < |addrs| ==> addrs[j] !in registry)
      && (a.Some? ==> FirstAmong(addrs, registry, i, a.value))
  {
    i := 0;
    if addrs != [] && addrs[0] !in registry {
      var k := FirstRegisteredExact(addrs[1..], registry);
      i := k + 1;
    }
  }

  /** Which error a deposit call reports before it changes anything: an unreadable proof, a proof that does not
      end at the root, then more matching outputs than registered addresses. */
  lemma MapErrors(w: Btc, s: State, req: MapRequest)
    requires CountersInRange(s) && WellFormed(w, req) && |req.tx.txOut| <= 0x1_0000_0000
    ensures var proof := Proof.ProofOfHex(req.merkleProofHex);
      var found := MatchingOutputs(w, req.registry, TxID(w, req.tx), req.tx.txOut);
      && (proof.Err? ==> MapTx(w, s, req, false) == Err(proof.error))
      && (proof.Ok? && VerifyTransaction(w, s.headers, req).Some? ==> MapTx(w, s, req, false) == Err(ErrInput))
      && (VerifyTransaction(w, s.headers, req) == None && |found| > |req.registry| ==>
            MapTx(w, s, req, false) == Err(Trap))
  {
    hide Proof.ProofOfHex, Proof.Climb, HeaderRoot, MatchingOutputs, UpdateUtxoSpends, ProcessUtxos, Slots, WellFormed;
  }
}
