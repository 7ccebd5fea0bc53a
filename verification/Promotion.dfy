// Confirmation of the contract's own spends (updateUtxoSpends in mapping.go):
// change moves from the unconfirmed to the confirmed pool.

module Promotion {
  import opened Wrappers
  import opened Int64
  import opened Bytes
  import opened Text
  import opened Types
  import opened Registry
  import opened State
  import opened Pools

  datatype UnconfirmedEntry = UnconfirmedEntry(indexInRegistry: nat, utxo: StoredUtxo)

  predicate RecordsPresent(s: State) {
    forall i :: 0 <= i < |s.utxoList| && !IsConfirmed(s.utxoList[i]) ==> s.utxoList[i].id in s.utxos
  }

  /** The unconfirmed entries among the first n of the registry, with their records. */
  function UnconfirmedEntries(s: State, n: nat): (entries: seq<UnconfirmedEntry>)
    requires RecordsPresent(s) && n <= |s.utxoList|
  {
    if n == 0 then [] else
    var e := s.utxoList[n - 1];
    UnconfirmedEntries(s, n - 1) + if IsConfirmed(e) then [] else [UnconfirmedEntry(n - 1, s.utxos[e.id])]
  }

  /** Every entry still points into the registry. */
  predicate InRegistry(s: State, entries: seq<UnconfirmedEntry>) {
    forall k :: 0 <= k < |entries| ==> entries[k].indexInRegistry < |s.utxoList|
  }

  predicate Matches(e: UnconfirmedEntry, txId: TxId, index: Uint32) {
    e.utxo.txId == txId && e.utxo.vout == index
  }

  /** Moves one entry to a new confirmed id: the record first, then the old key and the registry. */
  function Promote(s: State, e: UnconfirmedEntry, a: Allocation): State
    requires e.indexInRegistry < |s.utxoList|
  {
    var i := e.indexInRegistry;
    s.(confirmedNextId := a.next,
       utxos := s.utxos[a.id := e.utxo] - {s.utxoList[i].id},
       utxoList := s.utxoList[i := s.utxoList[i].(id := a.id)])
  }

  /** One signature hash's pass over the entries; false when the confirmed pool is full. */
  function PromoteEntries(s: State, txId: TxId, index: Uint32, entries: seq<UnconfirmedEntry>): (r: (State, bool))
    requires CountersInRange(s) && InRegistry(s, entries)
    ensures CountersInRange(r.0) && |r.0.utxoList| == |s.utxoList|
    decreases |entries|
  {
    if entries == [] then (s, true) else
    if !Matches(entries[0], txId, index) then PromoteEntries(s, txId, index, entries[1..]) else
    var a := AllocateConfirmed(s.confirmedNextId, s.utxos.Keys);
    if a.Err? then (s, false) else
    PromoteEntries(Promote(s, entries[0], a.value), txId, index, entries[1..])
  }

  function PromoteAll(s: State, txId: TxId, hashes: seq<UnsignedSigHash>,
                      entries: seq<UnconfirmedEntry>): (r: (State, bool))
    requires CountersInRange(s) && InRegistry(s, entries)
    ensures CountersInRange(r.0) && |r.0.utxoList| == |s.utxoList|
    decreases |hashes|
  {
    if hashes == [] then (s, true) else
    var (s1, ok) := PromoteEntries(s, txId, hashes[0].index, entries);
    if !ok then (s1, false) else PromoteAll(s1, txId, hashes[1..], entries)
  }

  /** Overwrites the first occurrence with the last element and drops the last. */
  function SwapRemove(list: TxSpendsRegistry, txId: TxId): (r: TxSpendsRegistry)
  {
    if txId !in list then list else
    var i := FirstIndex(list, txId);
    list[i := list[|list| - 1]][..|list| - 1]
  }

  function FirstIndex(list: TxSpendsRegistry, txId: TxId): (i: nat)
    requires txId in list
    ensures i < |list| && list[i] == txId && txId !in list[..i]
  {
    if list[0] == txId then 0 else 1 + FirstIndex(list[1..], txId)
  }

  function Forget(s: State, txId: TxId): State {
    s.(txSpends := s.txSpends - {txId}, txSpendsList := SwapRemove(s.txSpendsList, txId))
  }

  /** updateUtxoSpends: the state it leaves, and whether it returned without error. */
  function UpdateUtxoSpends(s: State, txId: TxId): (r: (State, bool))
    requires CountersInRange(s)
    ensures CountersInRange(r.0)
  {
    if txId !in s.txSpends then (s, true) else
    if !RecordsPresent(s) then (s, false) else
    var entries := UnconfirmedEntries(s, |s.utxoList|);
    assert InRegistry(s, entries) by { UnconfirmedEntriesMeaning(s, |s.utxoList|); }
    var (s1, ok) := PromoteAll(s, txId, s.txSpends[txId].unsignedSigHashes, entries);
    if ok then (Forget(s1, txId), true) else (s1, false)
  }

  lemma {:induction false} UnconfirmedEntriesMeaning(s: State, n: nat)
    requires RecordsPresent(s) && n <= |s.utxoList|
    ensures var entries := UnconfirmedEntries(s, n);
      && (forall k :: 0 <= k < |entries| ==> EntryAt(s, entries[k]) && entries[k].indexInRegistry < n)
      && InRegistry(s, entries)
      && (forall i :: 0 <= i < n && !IsConfirmed(s.utxoList[i]) ==>
           UnconfirmedEntry(i, s.utxos[s.utxoList[i].id]) in entries)
  {
    if n > 0 {
      UnconfirmedEntriesMeaning(s, n - 1);
      assert IsConfirmed(s.utxoList[n - 1]) || EntryAt(s, UnconfirmedEntry(n - 1, s.utxos[s.utxoList[n - 1].id]));
    }
  }

  /** The entry is an unconfirmed one of the registry, with its record. */
  ghost predicate EntryAt(s: State, e: UnconfirmedEntry) {
    && e.indexInRegistry < |s.utxoList| && !IsConfirmed(s.utxoList[e.indexInRegistry])
    && s.utxoList[e.indexInRegistry].id in s.utxos && e.utxo == s.utxos[s.utxoList[e.indexInRegistry].id]
  }

  // ---------------------------------------------------------------- effect of promotion

  /** Registry position i holds the same coin in both states: same amount, same record. */
  ghost predicate SameCoin(s: State, s': State, i: nat)
    requires i < |s.utxoList| == |s'.utxoList|
  {
    && s'.utxoList[i].amount == s.utxoList[i].amount
    && s.utxoList[i].id in s.utxos && s'.utxoList[i].id in s'.utxos
    && s'.utxos[s'.utxoList[i].id] == s.utxos[s.utxoList[i].id]
  }

  /** Position i holds output `vout in indices` of transaction txId. */
  ghost predicate Pays(s: State, i: nat, txId: TxId, indices: set<Uint32>)
    requires i < |s.utxoList|
  {
    && s.utxoList[i].id in s.utxos
    && s.utxos[s.utxoList[i].id].txId == txId && s.utxos[s.utxoList[i].id].vout in indices
  }

  /** Registry order, amounts and records are kept; ids change only to confirmed ones, and only at
      the given positions for the given outputs. */
  ghost predicate Moves(s: State, s': State, positions: set<nat>, txId: TxId, indices: set<Uint32>) {
    && |s'.utxoList| == |s.utxoList|
    && s' == s.(utxoList := s'.utxoList, utxos := s'.utxos, confirmedNextId := s'.confirmedNextId)
    && (forall i :: 0 <= i < |s.utxoList| ==> SameCoin(s, s', i))
    && forall i :: 0 <= i < |s.utxoList| && s'.utxoList[i].id != s.utxoList[i].id ==>
         IsConfirmed(s'.utxoList[i]) && i in positions && Pays(s, i, txId, indices)
  }

  ghost predicate PoolFull(s: State) {
    forall id: Byte :: UTXO_CONFIRMED_POOL_START <= id ==> id in s.utxos
  }

  /** The entries' positions hold the records they were loaded with. */
  ghost predicate Loaded(s: State, entries: seq<UnconfirmedEntry>, positions: set<nat>) {
    forall k :: 0 <= k < |entries| ==>
      var i := entries[k].indexInRegistry;
      i < |s.utxoList| && i in positions && s.utxoList[i].id in s.utxos && s.utxos[s.utxoList[i].id] == entries[k].utxo
  }

  lemma NoMove(s: State, positions: set<nat>, txId: TxId, indices: set<Uint32>)
    requires Coherent(s)
    ensures Moves(s, s, positions, txId, indices)
  {
    forall i | 0 <= i < |s.utxoList| ensures SameCoin(s, s, i) {
      assert s.utxoList[i].id in IdSet(s.utxoList);
    }
  }

  lemma MovesCompose(s: State, s1: State, s2: State, positions: set<nat>, txId: TxId, a: set<Uint32>, b: set<Uint32>)
    requires Moves(s, s1, positions, txId, a) && Moves(s1, s2, positions, txId, b)
    ensures Moves(s, s2, positions, txId, a + b)
  {
    forall i | 0 <= i < |s.utxoList| ensures SameCoin(s, s2, i) {
      assert SameCoin(s, s1, i) && SameCoin(s1, s2, i);
    }
    forall i | 0 <= i < |s.utxoList| && s2.utxoList[i].id != s.utxoList[i].id
      ensures IsConfirmed(s2.utxoList[i]) && i in positions && Pays(s, i, txId, a + b)
    {
      assert SameCoin(s, s1, i);
      if s2.utxoList[i].id != s1.utxoList[i].id {
        assert Pays(s1, i, txId, b);
      }
    }
  }

  lemma MovesKeepLoaded(s: State, s1: State, positions: set<nat>, txId: TxId, indices: set<Uint32>,
                        entries: seq<UnconfirmedEntry>)
    requires Moves(s, s1, positions, txId, indices) && Loaded(s, entries, positions)
    ensures Loaded(s1, entries, positions)
  {
    forall k | 0 <= k < |entries|
      ensures var i := entries[k].indexInRegistry;
        i < |s1.utxoList| && i in positions && s1.utxoList[i].id in s1.utxos
          && s1.utxos[s1.utxoList[i].id] == entries[k].utxo
    {
      assert SameCoin(s, s1, entries[k].indexInRegistry);
    }
  }

  /** Moving one entry to a free confirmed id keeps the registry coherent. */
  lemma PromoteCoherent(s: State, e: UnconfirmedEntry, a: Allocation)
    requires Coherent(s) && e.indexInRegistry < |s.utxoList| && a.id !in s.utxos
    requires s.utxos[s.utxoList[e.indexInRegistry].id] == e.utxo
    ensures Coherent(Promote(s, e, a))
  {
    var i := e.indexInRegistry;
    var s' := Promote(s, e, a);
    assert forall j :: 0 <= j < |s.utxoList| ==> s.utxoList[j].id in IdSet(s.utxoList);
    forall x | x in s'.utxos.Keys ensures x in IdSet(s'.utxoList) {
      if x == a.id {
        assert s'.utxoList[i].id == x;
      } else {
        var j := EntryOf(s, x);
        assert s'.utxoList[j].id == x;
      }
    }
    forall j | 0 <= j < |s'.utxoList| ensures s'.utxoList[j].id in s'.utxos {
    }
  }

  lemma PromoteMoves(s: State, e: UnconfirmedEntry, a: Allocation, positions: set<nat>)
    requires Coherent(s) && e.indexInRegistry < |s.utxoList| && a.id !in s.utxos && e.indexInRegistry in positions
    requires s.utxos[s.utxoList[e.indexInRegistry].id] == e.utxo && a.id >= UTXO_CONFIRMED_POOL_START
    ensures Moves(s, Promote(s, e, a), positions, e.utxo.txId, {e.utxo.vout})
  {
    var s' := Promote(s, e, a);
    assert forall j :: 0 <= j < |s.utxoList| ==> s.utxoList[j].id in IdSet(s.utxoList);
    forall j | 0 <= j < |s.utxoList| ensures SameCoin(s, s', j) {
    }
  }

  lemma PromoteEffect(s: State, e: UnconfirmedEntry, a: Allocation, positions: set<nat>)
    requires CountersInRange(s) && Coherent(s) && Loaded(s, [e], positions)
    requires AllocateConfirmed(s.confirmedNextId, s.utxos.Keys) == Ok(a)
    ensures e.indexInRegistry < |s.utxoList|
    ensures var s' := Promote(s, e, a);
      && Coherent(s') && CountersInRange(s')
      && Moves(s, s', positions, e.utxo.txId, {e.utxo.vout})
      && IsConfirmed(s'.utxoList[e.indexInRegistry])
  {
    AllocateMeaning(UTXO_CONFIRMED_POOL_START, UTXO_POOL_END, s.confirmedNextId, s.utxos.Keys);
    hide Allocate;
    assert [e][0] == e;
    PromoteCoherent(s, e, a);
    PromoteMoves(s, e, a, positions);
    hide Coherent, Moves;
  }

  /** Adding entries to `done` that later moves keep confirmed. */
  ghost predicate AllConfirmed(s: State, entries: seq<UnconfirmedEntry>, txId: TxId, index: Uint32) {
    forall k :: 0 <= k < |entries| && Matches(entries[k], txId, index) ==>
      entries[k].indexInRegistry < |s.utxoList| && IsConfirmed(s.utxoList[entries[k].indexInRegistry])
  }

  lemma MovesKeepConfirmed(s: State, s1: State, positions: set<nat>, txId: TxId, indices: set<Uint32>,
                           entries: seq<UnconfirmedEntry>, index: Uint32)
    requires Moves(s, s1, positions, txId, indices) && AllConfirmed(s, entries, txId, index)
    ensures AllConfirmed(s1, entries, txId, index)
  {
  }

  lemma {:induction false} PromoteEntriesEffect(s: State, txId: TxId, index: Uint32, entries: seq<UnconfirmedEntry>,
                                                positions: set<nat>)
    requires CountersInRange(s) && Coherent(s) && Loaded(s, entries, positions)
    ensures InRegistry(s, entries)
    ensures var (s', ok) := PromoteEntries(s, txId, index, entries);
      && Coherent(s') && Moves(s, s', positions, txId, {index})
      && (ok ==> AllConfirmed(s', entries, txId, index)) && (!ok ==> PoolFull(s'))
    decreases |entries|
  {
    hide Allocate, Promote, Coherent, Moves, AllConfirmed, PoolFull;
    if entries == [] {
      NoMove(s, positions, txId, {index});
      NoneLeft(s, entries, txId, index);
    } else {
      var e := entries[0];
      var a := AllocateConfirmed(s.confirmedNextId, s.utxos.Keys);
      if !Matches(e, txId, index) {
        PromoteEntriesEffect(s, txId, index, entries[1..], positions);
        FirstDone(PromoteEntries(s, txId, index, entries[1..]).0, entries, txId, index);
      } else if a.Err? {
        NoMove(s, positions, txId, {index});
        FullPool(s);
      } else {
        PromoteEffect(s, e, a.value, positions);
        var s1 := Promote(s, e, a.value);
        MovesKeepLoaded(s, s1, positions, txId, {index}, entries);
        PromoteEntriesEffect(s1, txId, index, entries[1..], positions);
        var s' := PromoteEntries(s1, txId, index, entries[1..]).0;
        MovesCompose(s, s1, s', positions, txId, {index}, {index});
        assert {index} + {index} == {index};
        StaysConfirmed(s1, s', positions, txId, index, e.indexInRegistry);
        FirstDone(s', entries, txId, index);
      }
    }
  }

  lemma NoneLeft(s: State, entries: seq<UnconfirmedEntry>, txId: TxId, index: Uint32)
    requires entries == []
    ensures AllConfirmed(s, entries, txId, index)
  {
  }

  lemma FullPool(s: State)
    requires CountersInRange(s) && AllocateConfirmed(s.confirmedNextId, s.utxos.Keys).Err?
    ensures PoolFull(s)
  {
    AllocateMeaning(UTXO_CONFIRMED_POOL_START, UTXO_POOL_END, s.confirmedNextId, s.utxos.Keys);
  }

  lemma StaysConfirmed(s: State, s': State, positions: set<nat>, txId: TxId, index: Uint32, i: nat)
    requires Moves(s, s', positions, txId, {index}) && i < |s.utxoList| && IsConfirmed(s.utxoList[i])
    ensures i < |s'.utxoList| && IsConfirmed(s'.utxoList[i])
  {
  }

  lemma FirstDone(s: State, entries: seq<UnconfirmedEntry>, txId: TxId, index: Uint32)
    requires entries != []
    requires Matches(entries[0], txId, index) ==>
      entries[0].indexInRegistry < |s.utxoList| && IsConfirmed(s.utxoList[entries[0].indexInRegistry])
    ensures AllConfirmed(s, entries[1..], txId, index) ==> AllConfirmed(s, entries, txId, index)
  {
    forall k | 1 <= k < |entries| ensures entries[k] == entries[1..][k - 1] {
    }
  }

  lemma LoadedInRegistry(s: State, entries: seq<UnconfirmedEntry>, positions: set<nat>)
    requires Loaded(s, entries, positions)
    ensures InRegistry(s, entries)
  {
  }

  ghost function Indices(hashes: seq<UnsignedSigHash>): set<Uint32> {
    set h | h in hashes :: h.index
  }

  lemma {:induction false} PromoteAllEffect(s: State, txId: TxId, hashes: seq<UnsignedSigHash>,
                                            entries: seq<UnconfirmedEntry>, positions: set<nat>)
    requires CountersInRange(s) && Coherent(s) && Loaded(s, entries, positions)
    ensures InRegistry(s, entries)
    ensures var (s', ok) := PromoteAll(s, txId, hashes, entries);
      && Coherent(s') && Moves(s, s', positions, txId, Indices(hashes))
      && (ok ==> forall h :: h in hashes ==> AllConfirmed(s', entries, txId, h.index))
      && (!ok ==> PoolFull(s'))
    decreases |hashes|
  {
    hide PromoteEntries, Coherent, Moves, AllConfirmed, PoolFull, Loaded;
    LoadedInRegistry(s, entries, positions);
    if hashes == [] {
      NoMove(s, positions, txId, Indices(hashes));
    } else {
      var index := hashes[0].index;
      PromoteEntriesEffect(s, txId, index, entries, positions);
      var (s1, ok) := PromoteEntries(s, txId, index, entries);
      assert Indices(hashes) == {index} + Indices(hashes[1..]);
      if ok {
        MovesKeepLoaded(s, s1, positions, txId, {index}, entries);
        PromoteAllEffect(s1, txId, hashes[1..], entries, positions);
        var s' := PromoteAll(s1, txId, hashes[1..], entries).0;
        MovesCompose(s, s1, s', positions, txId, {index}, Indices(hashes[1..]));
        MovesKeepConfirmed(s1, s', positions, txId, Indices(hashes[1..]), entries, index);
        assert forall h :: h in hashes ==> h == hashes[0] || h in hashes[1..];
      } else {
        NoMove(s1, positions, txId, Indices(hashes[1..]));
        MovesCompose(s, s1, s1, positions, txId, {index}, Indices(hashes[1..]));
      }
    }
  }

  /** What a confirmation of transaction txId does. An unknown id changes nothing. Otherwise the
      unconfirmed outputs of txId that some signature hash's index names become confirmed, all of
      them unless the confirmed pool runs full; registry order, amounts, records and every other
      id stay; and the pending record goes exactly when all were moved. */
  lemma UpdateUtxoSpendsEffect(s: State, txId: TxId, s': State, ok: bool)
    requires CountersInRange(s) && Coherent(s) && UpdateUtxoSpends(s, txId) == (s', ok)
    ensures Coherent(s') && |s'.utxoList| == |s.utxoList|
    ensures forall i :: 0 <= i < |s.utxoList| ==> SameCoin(s, s', i)
    ensures txId !in s.txSpends ==> s' == s && ok
    ensures txId in s.txSpends ==>
      var indices := Indices(s.txSpends[txId].unsignedSigHashes);
      && (forall i :: 0 <= i < |s.utxoList| && (IsConfirmed(s.utxoList[i]) || !Pays(s, i, txId, indices)) ==>
            s'.utxoList[i] == s.utxoList[i])
      && (ok ==> forall i :: 0 <= i < |s.utxoList| && Pays(s, i, txId, indices) ==> IsConfirmed(s'.utxoList[i]))
      && s'.txSpends == (if ok then s.txSpends - {txId} else s.txSpends)
      && (!ok ==> PoolFull(s') && s'.txSpendsList == s.txSpendsList)
    ensures s' == s.(utxoList := s'.utxoList, utxos := s'.utxos, confirmedNextId := s'.confirmedNextId,
                     txSpends := s'.txSpends, txSpendsList := s'.txSpendsList)
  {
    hide UpdateUtxoSpends, Coherent, CountersInRange, Positions, PoolFull, SwapRemove, Pays, SameCoin;
    if txId !in s.txSpends {
      NoMove(s, {}, txId, {});
      UnknownSpend(s, txId);
    } else {
      var s1 := UpdateStages(s, txId, s', ok);
      ForgetKeeps(s1, txId);
      hide Forget;
    }
  }

  lemma UnknownSpend(s: State, txId: TxId)
    requires CountersInRange(s) && txId !in s.txSpends
    ensures UpdateUtxoSpends(s, txId) == (s, true)
  {
  }

  lemma ForgetKeeps(s: State, txId: TxId)
    ensures Forget(s, txId) == s.(txSpends := s.txSpends - {txId}, txSpendsList := SwapRemove(s.txSpendsList, txId))
    ensures Coherent(s) ==> Coherent(Forget(s, txId))
    ensures forall i, s0: State :: 0 <= i < |s0.utxoList| == |s.utxoList| && SameCoin(s0, s, i) ==>
      SameCoin(s0, Forget(s, txId), i)
  {
  }

  /** Promotion proper, before the pending record is dropped. */
  lemma UpdateStages(s: State, txId: TxId, s': State, ok: bool) returns (s1: State)
    requires CountersInRange(s) && Coherent(s) && txId in s.txSpends && UpdateUtxoSpends(s, txId) == (s', ok)
    ensures s' == if ok then Forget(s1, txId) else s1
    ensures Coherent(s1) && (!ok ==> PoolFull(s1))
    ensures var indices := Indices(s.txSpends[txId].unsignedSigHashes);
      && Moves(s, s1, Positions(s), txId, indices)
      && (forall i :: 0 <= i < |s.utxoList| && (IsConfirmed(s.utxoList[i]) || !Pays(s, i, txId, indices)) ==>
            s1.utxoList[i] == s.utxoList[i])
      && (ok ==> forall i :: 0 <= i < |s.utxoList| && Pays(s, i, txId, indices) ==> IsConfirmed(s1.utxoList[i]))
  {
    hide PromoteAll, Coherent, PoolFull, Moves, AllConfirmed, Positions, Pays, Forget, UnconfirmedEntries;
    var hashes := s.txSpends[txId].unsignedSigHashes;
    RecordsArePresent(s);
    UnconfirmedEntriesMeaning(s, |s.utxoList|);
    var entries := UnconfirmedEntries(s, |s.utxoList|);
    EntriesLoaded(s, entries);
    PromoteAllEffect(s, txId, hashes, entries, Positions(s));
    s1 := PromoteAll(s, txId, hashes, entries).0;
    PromotedExactly(s, s1, txId, hashes, entries, ok);
  }

  ghost function Positions(s: State): set<nat> {
    set i: nat | i < |s.utxoList| && !IsConfirmed(s.utxoList[i])
  }

  lemma RecordsArePresent(s: State)
    requires Coherent(s)
    ensures RecordsPresent(s)
  {
    assert forall i :: 0 <= i < |s.utxoList| ==> s.utxoList[i].id in IdSet(s.utxoList);
  }

  lemma EntriesLoaded(s: State, entries: seq<UnconfirmedEntry>)
    requires forall k :: 0 <= k < |entries| ==> EntryAt(s, entries[k])
    ensures Loaded(s, entries, Positions(s))
  {
    forall k | 0 <= k < |entries|
      ensures var i := entries[k].indexInRegistry;
        i < |s.utxoList| && i in Positions(s) && s.utxoList[i].id in s.utxos
          && s.utxos[s.utxoList[i].id] == entries[k].utxo
    {
      assert EntryAt(s, entries[k]);
    }
  }

  /** From "each listed entry was moved" to the registry positions. */
  lemma PromotedExactly(s: State, s1: State, txId: TxId, hashes: seq<UnsignedSigHash>, entries: seq<UnconfirmedEntry>,
                        done: bool)
    requires Moves(s, s1, Positions(s), txId, Indices(hashes)) && RecordsPresent(s)
    requires forall i :: 0 <= i < |s.utxoList| && !IsConfirmed(s.utxoList[i]) ==>
      UnconfirmedEntry(i, s.utxos[s.utxoList[i].id]) in entries
    requires done ==> forall h :: h in hashes ==> AllConfirmed(s1, entries, txId, h.index)
    ensures forall i :: 0 <= i < |s.utxoList| && (IsConfirmed(s.utxoList[i]) || !Pays(s, i, txId, Indices(hashes))) ==>
      s1.utxoList[i] == s.utxoList[i]
    ensures done ==> forall i :: 0 <= i < |s.utxoList| && Pays(s, i, txId, Indices(hashes)) ==>
      IsConfirmed(s1.utxoList[i])
  {
    forall i | 0 <= i < |s.utxoList| && (IsConfirmed(s.utxoList[i]) || !Pays(s, i, txId, Indices(hashes)))
      ensures s1.utxoList[i] == s.utxoList[i]
    {
      assert SameCoin(s, s1, i);
    }
    if done {
      forall i | 0 <= i < |s.utxoList| && Pays(s, i, txId, Indices(hashes)) ensures IsConfirmed(s1.utxoList[i]) {
        if !IsConfirmed(s.utxoList[i]) {
          var e := UnconfirmedEntry(i, s.utxos[s.utxoList[i].id]);
          var k :| 0 <= k < |entries| && entries[k] == e;
          var h :| h in hashes && h.index == e.utxo.vout;
          assert Matches(entries[k], txId, h.index);
          assert AllConfirmed(s1, entries, txId, h.index);
        }
      }
    }
  }

  /** The hashes of a spend carry the numbers of its inputs, in order. */
  ghost predicate Numbered(hashes: seq<UnsignedSigHash>) {
    |hashes| <= 0x1_0000_0000 && forall i :: 0 <= i < |hashes| ==> hashes[i].index == i
  }

  lemma IndicesOfSpend(hashes: seq<UnsignedSigHash>)
    requires Numbered(hashes)
    ensures forall v: Uint32 :: v in Indices(hashes) <==> v < |hashes|
  {
    forall v: Uint32 ensures v in Indices(hashes) <==> v < |hashes| {
      if v < |hashes| {
        assert hashes[v] in hashes;
      }
    }
  }

  /** Confirming an n-input spend promotes its unconfirmed outputs with a number below n and no others:
      the code compares input indices with output numbers. */
  lemma ConfirmationExact(s: State, txId: TxId, s': State)
    requires CountersInRange(s) && Coherent(s) && txId in s.txSpends
    requires Numbered(s.txSpends[txId].unsignedSigHashes) && UpdateUtxoSpends(s, txId) == (s', true)
    ensures txId !in s'.txSpends && |s'.utxoList| == |s.utxoList| && Coherent(s')
    ensures var n := |s.txSpends[txId].unsignedSigHashes|;
      forall i :: 0 <= i < |s.utxoList| ==>
        && SameCoin(s, s', i)
        && var u := s.utxos[s.utxoList[i].id];
           if u.txId == txId && u.vout < n && !IsConfirmed(s.utxoList[i])
           then IsConfirmed(s'.utxoList[i]) else s'.utxoList[i] == s.utxoList[i]
  {
    hide UpdateUtxoSpends, Coherent, PoolFull;
    var hashes := s.txSpends[txId].unsignedSigHashes;
    UpdateUtxoSpendsEffect(s, txId, s', true);
    IndicesOfSpend(hashes);
    hide Indices;
    forall i | 0 <= i < |s.utxoList|
      ensures SameCoin(s, s', i)
      ensures var u := s.utxos[s.utxoList[i].id];
        if u.txId == txId && u.vout < |hashes| && !IsConfirmed(s.utxoList[i])
        then IsConfirmed(s'.utxoList[i]) else s'.utxoList[i] == s.utxoList[i]
    {
      assert SameCoin(s, s', i);
      assert Pays(s, i, txId, Indices(hashes))
        <==> s.utxos[s.utxoList[i].id].txId == txId && s.utxos[s.utxoList[i].id].vout < |hashes|;
    }
  }

  // ---------------------------------------------------------------- what is left alone

  lemma {:induction false} PromoteEntriesFrame(s: State, txId: TxId, index: Uint32, entries: seq<UnconfirmedEntry>)
    requires CountersInRange(s) && InRegistry(s, entries)
    ensures var s' := PromoteEntries(s, txId, index, entries).0;
      s' == s.(utxoList := s'.utxoList, utxos := s'.utxos, confirmedNextId := s'.confirmedNextId)
    decreases |entries|
  {
    hide Allocate;
    if entries != [] {
      if !Matches(entries[0], txId, index) {
        PromoteEntriesFrame(s, txId, index, entries[1..]);
      } else {
        var a := AllocateConfirmed(s.confirmedNextId, s.utxos.Keys);
        if a.Ok? {
          PromoteEntriesFrame(Promote(s, entries[0], a.value), txId, index, entries[1..]);
        }
      }
    }
  }

  lemma {:induction false} PromoteAllFrame(s: State, txId: TxId, hashes: seq<UnsignedSigHash>,
                                           entries: seq<UnconfirmedEntry>)
    requires CountersInRange(s) && InRegistry(s, entries)
    ensures var s' := PromoteAll(s, txId, hashes, entries).0;
      s' == s.(utxoList := s'.utxoList, utxos := s'.utxos, confirmedNextId := s'.confirmedNextId)
    decreases |hashes|
  {
    hide PromoteEntries;
    if hashes != [] {
      PromoteEntriesFrame(s, txId, hashes[0].index, entries);
      PromoteAllFrame(PromoteEntries(s, txId, hashes[0].index, entries).0, txId, hashes[1..], entries);
    }
  }

  /** A confirmation touches registry, records, one counter and the pending spends, whatever the state. */
  lemma UpdateFrame(s: State, txId: TxId)
    requires CountersInRange(s)
    ensures var s' := UpdateUtxoSpends(s, txId).0;
      s' == s.(utxoList := s'.utxoList, utxos := s'.utxos, confirmedNextId := s'.confirmedNextId,
               txSpends := s'.txSpends, txSpendsList := s'.txSpendsList)
    ensures var s' := UpdateUtxoSpends(s, txId).0; s'.txSpends == s.txSpends || s'.txSpends == s.txSpends - {txId}
  {
    hide PromoteAll, SwapRemove;
    if txId in s.txSpends && RecordsPresent(s) {
      var entries := UnconfirmedEntries(s, |s.utxoList|);
      UnconfirmedEntriesMeaning(s, |s.utxoList|);
      PromoteAllFrame(s, txId, s.txSpends[txId].unsignedSigHashes, entries);
    }
  }

  // ---------------------------------------------------------------- the pending list

  lemma {:induction false} FirstAfter(a: TxSpendsRegistry, txId: TxId, b: TxSpendsRegistry)
    requires txId !in a
    ensures FirstIndex(a + [txId] + b, txId) == |a|
  {
    if a != [] {
      assert a[0] in a && forall t :: t in a[1..] ==> t in a;
      FirstAfter(a[1..], txId, b);
      assert (a + [txId] + b)[0] == a[0] && (a + [txId] + b)[1..] == a[1..] + [txId] + b;
    }
  }

  /** The first occurrence gives way to the last element; the others keep their places. */
  lemma SwapRemoveExact(a: TxSpendsRegistry, txId: TxId, b: TxSpendsRegistry)
    requires txId !in a
    ensures SwapRemove(a + [txId] + b, txId) == if b == [] then a else a + [b[|b| - 1]] + b[..|b| - 1]
  {
    FirstAfter(a, txId, b);
    hide FirstIndex;
  }

  lemma SwapRemoveMeaning(list: TxSpendsRegistry, txId: TxId)
    requires NoRepeats(list)
    ensures NoRepeats(SwapRemove(list, txId))
    ensures forall t: TxId :: t in SwapRemove(list, txId) <==> t in list && t != txId
  {
    if txId in list {
      var i, n := FirstIndex(list, txId), |list| - 1;
      var r := SwapRemove(list, txId);
      assert forall j :: 0 <= j < n ==> r[j] == if j == i then list[n] else list[j];
      forall t: TxId ensures t in r <==> t in list && t != txId {
        if t in list && t != txId {
          var j :| 0 <= j <= n && list[j] == t;
          assert r[if j == n then i else j] == t;
        }
      }
    }
  }

  lemma UpdateKeepsSpendsListed(s: State, txId: TxId, s': State, ok: bool)
    requires CountersInRange(s) && Coherent(s) && SpendsListed(s) && UpdateUtxoSpends(s, txId) == (s', ok)
    ensures SpendsListed(s')
  {
    hide UpdateUtxoSpends, Coherent, SwapRemove, SameCoin, Pays, PoolFull, Positions;
    if txId in s.txSpends {
      var s1 := UpdateStages(s, txId, s', ok);
      SwapRemoveMeaning(s.txSpendsList, txId);
    } else {
      UnknownSpend(s, txId);
    }
  }
}
