// The contract's state between calls, as typed tables, and its invariants.

module State {
  import opened Wrappers
  import opened Int64
  import opened Bytes
  import opened Text
  import opened Types
  import opened Keys
  import opened Accounts
  import opened Registry

  datatype State = State(
    // ContractState
    utxoList: UtxoRegistry,
    confirmedNextId: Byte,
    unconfirmedNextId: Byte,
    txSpendsList: TxSpendsRegistry,
    supply: SystemSupply,
    // the other tables of the store
    balances: Balances,
    utxos: map<Byte, StoredUtxo>,
    observed: set<Outpoint>,
    txSpends: map<TxId, SigningData>,
    headers: map<Uint32, Bytes>,
    lastHeight: Option<Uint32>,
    router: Bytes
  )

  /** An empty store, as the loader reads it. */
  function EmptyState(): State {
    State([], UTXO_CONFIRMED_POOL_START, 0, [], SystemSupply(0, 0, 0, 0), map[], map[], {}, map[], map[], None, [])
  }

  ghost predicate CountersInRange(s: State) {
    UTXO_CONFIRMED_POOL_START <= s.confirmedNextId < UTXO_POOL_END && s.unconfirmedNextId < UTXO_CONFIRMED_POOL_START
  }

  /** The registry indexes exactly the stored records, once each, with their amounts. */
  ghost predicate Coherent(s: State) {
    && DistinctIds(s.utxoList)
    && IdSet(s.utxoList) == s.utxos.Keys
    && forall i :: 0 <= i < |s.utxoList| ==> s.utxos[s.utxoList[i].id].amount == s.utxoList[i].amount
  }

  /** Balances are positive and add up to the user supply, which is the active supply. */
  ghost predicate UserLedger(s: State) {
    && AllPositive(s.balances)
    && SumBalances(s.balances) == s.supply.userSupply == s.supply.activeSupply
  }

  ghost predicate NoRepeats<T(!new)>(xs: seq<T>) {
    forall i, j :: 0 <= i < j < |xs| ==> xs[i] != xs[j]
  }

  /** The pending-spend list names exactly the stored pending spends, once each. */
  ghost predicate SpendsListed(s: State) {
    && NoRepeats(s.txSpendsList)
    && forall t: TxId :: t in s.txSpendsList <==> t in s.txSpends
  }

  ghost predicate Inv(s: State) {
    CountersInRange(s) && Coherent(s) && UserLedger(s) && SpendsListed(s)
  }

  lemma InitialInv()
    ensures Inv(EmptyState())
  {
  }

  lemma EntryOf(s: State, id: Byte) returns (i: nat)
    requires Coherent(s) && id in s.utxos
    ensures i < |s.utxoList| && s.utxoList[i].id == id
  {
    assert id in IdSet(s.utxoList);
    i :| 0 <= i < |s.utxoList| && s.utxoList[i].id == id;
  }

  /** Saving a record under a free id and appending its registry entry keeps coherence. */
  lemma AppendCoherent(s: State, id: Byte, u: StoredUtxo)
    requires Coherent(s) && id !in s.utxos
    ensures Coherent(s.(utxoList := s.utxoList + [UtxoRegistryEntry(id, u.amount)], utxos := s.utxos[id := u]))
  {
    var s' := s.(utxoList := s.utxoList + [UtxoRegistryEntry(id, u.amount)], utxos := s.utxos[id := u]);
    assert forall i :: 0 <= i < |s.utxoList| ==> s.utxoList[i].id in IdSet(s.utxoList);
    assert s'.utxoList[|s.utxoList|].id in IdSet(s'.utxoList);
    forall x | x in s'.utxos.Keys ensures x in IdSet(s'.utxoList) {
      if x != id {
        var i := EntryOf(s, x);
        assert s'.utxoList[i].id == x;
      }
    }
  }
}
