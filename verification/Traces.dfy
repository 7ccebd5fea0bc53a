// The loops of withdrawal, deposit and confirmation as sequences of states: what each iteration
// does, in which order, and which id it takes.

module Traces {
  import opened Wrappers
  import opened Int64
  import opened Text
  import opened Types
  import opened Keys
  import opened World
  import opened Spend
  import opened State
  import opened Pools
  import opened Promotion
  import opened Mapping
  import opened Unmapping

  // ---------------------------------------------------------------- change outputs

  /** The first free id of the unconfirmed pool from the counter on, the coin stored and registered under it,
      the counter just behind it. */
  ghost predicate ChangeSaved(s: State, slot: Option<Utxo>, s': State)
    requires CountersInRange(s)
  {
    var a := AllocateUnconfirmed(s.unconfirmedNextId, s.utxos.Keys);
    && slot.Some? && slot.value.Storable() && a.Ok?
    && s' == s.(unconfirmedNextId := a.value.next,
                utxoList := s.utxoList + [UtxoRegistryEntry(a.value.id, slot.value.amount)],
                utxos := s.utxos[a.value.id := slot.value.Stored()])
  }

  ghost predicate ChangeTrace(ss: seq<State>, slots: seq<Option<Utxo>>) {
    && |ss| == |slots| + 1
    && forall k :: 0 <= k < |slots| ==> CountersInRange(ss[k]) && ChangeSaved(ss[k], slots[k], ss[k + 1])
  }

  /** Change outputs are saved one after the other, in output order. */
  lemma {:induction false} ChangeInOrder(s: State, slots: seq<Option<Utxo>>, s': State) returns (ss: seq<State>)
    requires CountersInRange(s) && StorableSlots(slots) && AddChange(s, slots) == Ok(s')
    ensures ChangeTrace(ss, slots) && ss[0] == s && ss[|slots|] == s'
    decreases |slots|
  {
    if slots == [] {
      ss := [s];
    } else {
      var a := AllocateUnconfirmed(s.unconfirmedNextId, s.utxos.Keys).value;
      hide Allocate;
      var next := WithChange(s, a, slots[0].value);
      assert ChangeSaved(s, slots[0], next);
      var rest := ChangeInOrder(next, slots[1..], s');
      ss := [s] + rest;
      Prepended(s, rest, slots);
    }
  }

  lemma Prepended(s: State, rest: seq<State>, slots: seq<Option<Utxo>>)
    requires slots != [] && ChangeTrace(rest, slots[1..]) && CountersInRange(s) && ChangeSaved(s, slots[0], rest[0])
    ensures ChangeTrace([s] + rest, slots)
  {
    hide ChangeSaved, CountersInRange;
    var ss := [s] + rest;
    forall k | 0 <= k < |slots| ensures CountersInRange(ss[k]) && ChangeSaved(ss[k], slots[k], ss[k + 1]) {
      if k > 0 {
        assert ss[k] == rest[k - 1] && ss[k + 1] == rest[k] && slots[k] == slots[1..][k - 1];
      }
    }
  }

  // ---------------------------------------------------------------- deposits

  ghost predicate CreditTrace(w: Btc, ps: seq<Progress>, req: MapRequest, slots: seq<Option<Utxo>>, checked: bool) {
    && |ps| == |slots| + 1
    && forall k :: 0 <= k < |slots| ==>
         Ready(ps[k].state, [slots[k]]) && CreditOne(w, ps[k], req, k, slots[k], checked) == Ok(ps[k + 1])
  }

  /** A new coin takes the first free id of the confirmed pool from the counter on; one seen before or paid to
      an address that is not registered takes none. */
  lemma CreditTakesNext(w: Btc, p: Progress, req: MapRequest, i: nat, u: Utxo, checked: bool, p': Progress)
    requires Ready(p.state, [Some(u)]) && CreditOne(w, p, req, i, Some(u), checked) == Ok(p')
    ensures w.addrsOf(u.pkScript).Some? && w.addrsOf(u.pkScript).value != []
    ensures
      if w.addrsOf(u.pkScript).value[0] !in req.registry || Outpoint(u.txId, u.vout) in p.state.observed
      then p' == p
      else
        var a := AllocateConfirmed(p.state.confirmedNextId, p.state.utxos.Keys);
        && a.Ok? && u.Storable() && p'.total == p.total + u.amount
        && p'.state == p.state.(confirmedNextId := a.value.next,
             utxoList := p.state.utxoList + [UtxoRegistryEntry(a.value.id, u.amount)],
             utxos := p.state.utxos[a.value.id := u.Stored()],
             observed := p.state.observed + {Outpoint(u.txId, u.vout)},
             balances := p'.state.balances)
  {
    hide Allocate, CreditBalances;
    assert [Some(u)][0] == Some(u);
  }

  lemma {:induction false} CreditFrom(w: Btc, p: Progress, req: MapRequest, slots: seq<Option<Utxo>>, checked: bool,
                                      n: nat, done: seq<Progress>, p': Progress)
    returns (ps: seq<Progress>)
    requires n <= |slots| && |done| == n + 1 && done[n] == p && CreditTrace(w, done, req, slots[..n], checked)
    requires Ready(p.state, slots) && CreditAll(w, p, req, slots, n, checked) == Ok(p')
    ensures CreditTrace(w, ps, req, slots, checked) && done <= ps && ps[|slots|] == p'
    decreases |slots| - n
  {
    if n == |slots| {
      assert slots[..n] == slots;
      ps := done;
    } else {
      NextCredit(w, p, req, slots, n, checked);
      hide CreditOne, CreditAll;
      var next := CreditOne(w, p, req, n, slots[n], checked).value;
      Appended(w, done, next, req, slots, n, checked);
      ps := CreditFrom(w, next, req, slots, checked, n + 1, done + [next], p');
    }
  }

  /** The outputs of a deposit call are credited one after the other, in output order. */
  lemma CreditInOrder(w: Btc, p: Progress, req: MapRequest, slots: seq<Option<Utxo>>, checked: bool, p': Progress)
    returns (ps: seq<Progress>)
    requires Ready(p.state, slots) && CreditAll(w, p, req, slots, 0, checked) == Ok(p')
    ensures CreditTrace(w, ps, req, slots, checked) && ps[0] == p && ps[|slots|] == p'
  {
    hide CreditAll, CreditOne;
    ps := CreditFrom(w, p, req, slots, checked, 0, [p], p');
  }

  lemma NextCredit(w: Btc, p: Progress, req: MapRequest, slots: seq<Option<Utxo>>, n: nat, checked: bool)
    requires n < |slots| && Ready(p.state, slots) && CreditAll(w, p, req, slots, n, checked).Ok?
    ensures Ready(p.state, [slots[n]]) && CreditOne(w, p, req, n, slots[n], checked).Ok?
    ensures var next := CreditOne(w, p, req, n, slots[n], checked).value;
      Ready(next.state, slots)
      && CreditAll(w, next, req, slots, n + 1, checked) == CreditAll(w, p, req, slots, n, checked)
  {
    hide CreditOne;
    assert [slots[n]][0] == slots[n];
  }

  lemma Appended(w: Btc, done: seq<Progress>, next: Progress, req: MapRequest, slots: seq<Option<Utxo>>, n: nat,
                 checked: bool)
    requires n < |slots| && |done| == n + 1 && CreditTrace(w, done, req, slots[..n], checked)
    requires Ready(done[n].state, [slots[n]]) && CreditOne(w, done[n], req, n, slots[n], checked) == Ok(next)
    ensures CreditTrace(w, done + [next], req, slots[..n + 1], checked)
  {
    hide CreditOne, Ready;
    var ps, more := done + [next], slots[..n + 1];
    forall k | 0 <= k < |more|
      ensures Ready(ps[k].state, [more[k]]) && CreditOne(w, ps[k], req, k, more[k], checked) == Ok(ps[k + 1])
    {
      if k < n {
        assert more[k] == slots[..n][k] && ps[k] == done[k] && ps[k + 1] == done[k + 1];
      }
    }
  }

  // ---------------------------------------------------------------- confirmation

  /** A pass over the entries for one input number: an entry of that number takes the first free id of the
      confirmed pool from the counter on, keeping record and place; the others are passed over. */
  ghost predicate Promoted(s: State, txId: TxId, index: Uint32, e: UnconfirmedEntry, s': State)
    requires CountersInRange(s) && e.indexInRegistry < |s.utxoList|
  {
    var a := AllocateConfirmed(s.confirmedNextId, s.utxos.Keys);
    var i := e.indexInRegistry;
    if e.utxo.txId != txId || e.utxo.vout != index then s' == s
    else
      && a.Ok?
      && s' == s.(confirmedNextId := a.value.next,
                  utxoList := s.utxoList[i := UtxoRegistryEntry(a.value.id, s.utxoList[i].amount)],
                  utxos := s.utxos[a.value.id := e.utxo] - {s.utxoList[i].id})
  }

  ghost predicate PassTrace(ss: seq<State>, txId: TxId, index: Uint32, entries: seq<UnconfirmedEntry>) {
    && |ss| == |entries| + 1
    && forall k :: 0 <= k < |entries| ==>
         && CountersInRange(ss[k]) && entries[k].indexInRegistry < |ss[k].utxoList|
         && Promoted(ss[k], txId, index, entries[k], ss[k + 1])
  }

  /** Entries are looked at in registry order. */
  lemma {:induction false} PassInOrder(s: State, txId: TxId, index: Uint32, entries: seq<UnconfirmedEntry>, s': State)
    returns (ss: seq<State>)
    requires CountersInRange(s) && InRegistry(s, entries) && PromoteEntries(s, txId, index, entries) == (s', true)
    ensures PassTrace(ss, txId, index, entries) && ss[0] == s && ss[|entries|] == s'
    decreases |entries|
  {
    if entries == [] {
      ss := [s];
    } else {
      var next := FirstPromoted(s, txId, index, entries, s');
      hide PromoteEntries, Promoted;
      var rest := PassInOrder(next, txId, index, entries[1..], s');
      ss := [s] + rest;
      forall k | 0 <= k < |entries|
        ensures CountersInRange(ss[k]) && entries[k].indexInRegistry < |ss[k].utxoList|
        ensures Promoted(ss[k], txId, index, entries[k], ss[k + 1])
      {
        if k > 0 {
          assert ss[k] == rest[k - 1] && ss[k + 1] == rest[k] && entries[k] == entries[1..][k - 1];
        }
      }
    }
  }

  lemma FirstPromoted(s: State, txId: TxId, index: Uint32, entries: seq<UnconfirmedEntry>, s': State)
    returns (next: State)
    requires CountersInRange(s) && InRegistry(s, entries) && entries != []
    requires PromoteEntries(s, txId, index, entries) == (s', true)
    ensures entries[0].indexInRegistry < |s.utxoList| && Promoted(s, txId, index, entries[0], next)
    ensures CountersInRange(next) && InRegistry(next, entries[1..])
    ensures PromoteEntries(next, txId, index, entries[1..]) == (s', true)
  {
    hide Allocate;
    next := if Matches(entries[0], txId, index)
      then Promote(s, entries[0], AllocateConfirmed(s.confirmedNextId, s.utxos.Keys).value) else s;
  }

  ghost predicate SpendTrace(ss: seq<State>, txId: TxId, hashes: seq<UnsignedSigHash>,
                             entries: seq<UnconfirmedEntry>) {
    && |ss| == |hashes| + 1
    && forall k :: 0 <= k < |hashes| ==>
         && CountersInRange(ss[k]) && InRegistry(ss[k], entries)
         && PromoteEntries(ss[k], txId, hashes[k].index, entries) == (ss[k + 1], true)
  }

  /** Signature hashes are gone through in their order, each with a pass over all entries. */
  lemma {:induction false} HashesInOrder(s: State, txId: TxId, hashes: seq<UnsignedSigHash>,
                                         entries: seq<UnconfirmedEntry>, s': State)
    returns (ss: seq<State>)
    requires CountersInRange(s) && InRegistry(s, entries) && PromoteAll(s, txId, hashes, entries) == (s', true)
    ensures SpendTrace(ss, txId, hashes, entries) && ss[0] == s && ss[|hashes|] == s'
    decreases |hashes|
  {
    hide PromoteEntries;
    if hashes == [] {
      ss := [s];
    } else {
      var next := PromoteEntries(s, txId, hashes[0].index, entries).0;
      var rest := HashesInOrder(next, txId, hashes[1..], entries, s');
      ss := [s] + rest;
      forall k | 0 <= k < |hashes|
        ensures CountersInRange(ss[k]) && InRegistry(ss[k], entries)
        ensures PromoteEntries(ss[k], txId, hashes[k].index, entries) == (ss[k + 1], true)
      {
        if k > 0 {
          assert ss[k] == rest[k - 1] && ss[k + 1] == rest[k] && hashes[k] == hashes[1..][k - 1];
        }
      }
    }
  }
}
